/** The manifest manager's event loop as a state machine: manifests submitted for one deployment wait for a chain
    read, are checked against the deployment version that read gives, and are published and answered.  Every statement
    about runs below holds for every sequence of events and every answer of the chain. */
module ManifestLoop {
  import opened Market

  newtype Byte = x: int | 0 <= x < 256

  type Hash = seq<Byte>

  /** A lease of the deployment, which the manager only publishes. */
  type Lease(==, !new)

  /** A manifest: its contents, whether `Validate` and the proxy buffer limits accept it, and the hash `Version` gives,
      if it gives one. */
  datatype Manifest = Manifest(body: string, valid: bool, withinLimits: bool, version: Option<Hash>)

  /** A submitted manifest.  `serial` numbers the submissions, `checks` counts the times it was validated, and
      `missedAt` is the number of chain reads started when its version first mismatched. */
  datatype Request = Request(serial: nat, manifest: Manifest, reread: bool, checks: nat, missedAt: nat)

  datatype Reason = ContextEnded | Invalid | OverLimits | NoVersion | WrongGroups | HostnameTaken

  /** What a request is answered.  A success names the manifest handed to the bus for it, the hash expected then, the
      leases it was handed over for and where in the record of publications they begin; a version mismatch names the
      chain read it was judged by and the hash expected then. */
  datatype Answer =
    | Success(published: Manifest, expected: Hash, leases: seq<Lease>, at: nat)
    | VersionMismatch(basis: nat, expected: Hash)
    | Rejected(reason: Reason)
    | NoLease
    | FetchFailed
    | NotRunning

  datatype Reply = Reply(request: Request, answer: Answer)

  /** A manifest handed to the bus for a lease, and whether the bus took it: the manager only logs it if not. */
  datatype Publication = Publication(lease: Lease, manifest: Manifest, ok: bool)

  datatype Version = Version(hash: Hash, height: nat)

  /** What the environment says while one request is validated: whether its context ended before or during the
      validation, whether the manifest fits the deployment's groups, whether its hostnames are free. */
  datatype Probe = Probe(endedBefore: bool, endedDuring: bool, fits: bool, hostsFree: bool)

  datatype Queues = Queues(requests: seq<Request>, pending: seq<Request>, manifests: seq<Manifest>)

  /** `reading` is the number of the chain read running, if one is; `started` counts the reads started, `applied` is
      the number of the last one applied, and `history` holds the version each applied read gave. */
  datatype Chain = Chain(
    expected: Version,
    fetched: bool,
    leases: seq<Lease>,
    reading: Option<nat>,
    started: nat,
    applied: nat,
    history: seq<Version>)

  datatype Log = Log(received: nat, replies: seq<Reply>, dropped: seq<Request>, published: seq<Publication>)

  datatype State = State(q: Queues, c: Chain, log: Log, exited: bool)

  datatype Event =
    | LeaseWon(stale: bool)
    | LeaseRemoved
    | Submit(manifest: Manifest, stale: bool, probes: seq<Probe>, bus: seq<bool>)
    | VersionUpdate
    | ReadFailed
    | ReadDone(version: Version, leases: seq<Lease>, probes: seq<Probe>, bus: seq<bool>)
    | Stop

  // ---- Chain reads ----

  function Clear(c: Chain): Chain {
    c.(fetched := false, leases := [])
  }

  function StartRead(c: Chain): Chain {
    Clear(c).(reading := Some(c.started + 1), started := c.started + 1)
  }

  /** `stale` says whether the cached read is older than the configured age. */
  function MaybeFetch(c: Chain, stale: bool): Chain {
    if c.reading.Some? then c
    else if !c.fetched || stale then StartRead(c)
    else c
  }

  /** A hash from an earlier height, or none, leaves the expected version alone. */
  function NewExpected(current: Version, read: Version): Version {
    if read.hash == [] || read.height < current.height then current else read
  }

  function ApplyRead(c: Chain, v: Version, leases: seq<Lease>): Chain
    requires c.reading.Some?
  {
    c.(reading := None, fetched := true, leases := leases, expected := NewExpected(c.expected, v),
       applied := c.reading.value, history := c.history + [v])
  }

  // ---- Validation ----

  datatype Verdict = Accepted | Mismatch | Refused(reason: Reason)

  function Judge(m: Manifest, p: Probe, expected: Hash): Verdict {
    if p.endedDuring then Refused(ContextEnded)
    else if !m.valid then Refused(Invalid)
    else if !m.withinLimits then Refused(OverLimits)
    else if m.version.None? then Refused(NoVersion)
    else if m.version.value != expected then Mismatch
    else if !p.fits then Refused(WrongGroups)
    else if !p.hostsFree then Refused(HostnameTaken)
    else Accepted
  }

  /** The requests of one validation pass, sorted by what becomes of them. */
  datatype Batch = Batch(accepted: seq<Request>, reread: seq<Request>, replies: seq<Reply>, dropped: seq<Request>)

  function Checked(r: Request): Request {
    r.(checks := r.checks + 1)
  }

  function Place(b: Batch, r: Request, p: Probe, c: Chain): Batch {
    if p.endedBefore then b.(dropped := b.dropped + [r])
    else match Judge(r.manifest, p, c.expected.hash)
      case Accepted => b.(accepted := b.accepted + [Checked(r)])
      case Refused(reason) => b.(replies := b.replies + [Reply(Checked(r), Rejected(reason))])
      case Mismatch =>
        if r.reread then b.(replies := b.replies + [Reply(Checked(r), VersionMismatch(c.applied, c.expected.hash))])
        else b.(reread := b.reread + [Checked(r).(reread := true, missedAt := c.started)])
  }

  /** A probe for every position: the environment may say anything, and has nothing to report past its list. */
  function ProbeAt(probes: seq<Probe>, i: nat): Probe {
    if i < |probes| then probes[i] else Probe(false, false, true, true)
  }

  function Sort(rs: seq<Request>, probes: seq<Probe>, c: Chain): Batch {
    if rs == [] then Batch([], [], [], [])
    else Place(Sort(rs[..|rs| - 1], probes, c), rs[|rs| - 1], ProbeAt(probes, |rs| - 1), c)
  }

  function First(accepted: seq<Request>): seq<Manifest> {
    if accepted == [] then [] else [accepted[0].manifest]
  }

  function TakeBatch(s: State, b: Batch): State {
    s.(q := Queues(b.reread, s.q.pending + b.accepted, s.q.manifests + First(b.accepted)),
       log := s.log.(replies := s.log.replies + b.replies, dropped := s.log.dropped + b.dropped))
  }

  function Validate(s: State, probes: seq<Probe>): State {
    if !s.c.fetched || s.q.requests == [] then s
    else TakeBatch(s, Sort(s.q.requests, probes, s.c))
  }

  // ---- Answers and publications ----

  function AnswerAll(rs: seq<Request>, a: Answer): seq<Reply> {
    seq(|rs|, i requires 0 <= i < |rs| => Reply(rs[i], a))
  }

  function FillAll(s: State, a: Answer): State {
    s.(q := s.q.(requests := [], pending := []),
       log := s.log.(replies := s.log.replies + AnswerAll(s.q.pending, a) + AnswerAll(s.q.requests, a)))
  }

  /** Whether the bus takes the `i`th publication of a step; it does past its list of answers. */
  function BusTakes(bus: seq<bool>, i: nat): bool {
    i < |bus| ==> bus[i]
  }

  function PublishAll(leases: seq<Lease>, m: Manifest, bus: seq<bool>): seq<Publication> {
    seq(|leases|, i requires 0 <= i < |leases| => Publication(leases[i], m, BusTakes(bus, i)))
  }

  function Latest(q: Queues): Manifest
    requires q.manifests != []
  {
    q.manifests[|q.manifests| - 1]
  }

  function Accepting(s: State): Answer
    requires s.q.manifests != []
  {
    Success(Latest(s.q), s.c.expected.hash, s.c.leases, |s.log.published|)
  }

  function Published(s: State, bus: seq<bool>): State
    requires s.q.manifests != []
  {
    s.(q := s.q.(pending := []),
       log := s.log.(replies := s.log.replies + AnswerAll(s.q.pending, Accepting(s)),
                     published := s.log.published + PublishAll(s.c.leases, Latest(s.q), bus)))
  }

  function Emit(s: State, bus: seq<bool>): State {
    if !s.c.fetched || s.q.manifests == [] then s
    else if s.c.leases == [] then FillAll(s, NoLease)
    else Published(s, bus)
  }

  function MaybeEmit(s: State, bus: seq<bool>): State {
    if s.q.requests != [] && s.q.pending == [] then s else Emit(s, bus)
  }

  function MaybeReread(s: State): State {
    if s.q.requests == [] then s else s.(c := StartRead(s.c))
  }

  // ---- The loop ----

  function Init(): State {
    State(Queues([], [], []), Chain(Version([], 0), false, [], None, 0, 0, []), Log(0, [], [], []), false)
  }

  /** What follows once the chain data is there. */
  function Process(s: State, probes: seq<Probe>, bus: seq<bool>): State {
    MaybeReread(MaybeEmit(Validate(s, probes), bus))
  }

  function Receive(s: State, m: Manifest): State {
    s.(q := s.q.(requests := s.q.requests + [Request(s.log.received, m, false, 0, 0)]),
       log := s.log.(received := s.log.received + 1))
  }

  function OnSubmit(s: State, m: Manifest, stale: bool, probes: seq<Probe>, bus: seq<bool>): State {
    var t := Receive(s, m).(c := MaybeFetch(s.c, stale));
    if t.c.reading.Some? then t else Process(t, probes, bus)
  }

  function OnReadFailed(s: State): State {
    FillAll(s.(c := s.c.(reading := None)), FetchFailed)
  }

  function OnReadDone(s: State, v: Version, leases: seq<Lease>, probes: seq<Probe>, bus: seq<bool>): State
    requires s.c.reading.Some?
  {
    Process(s.(c := ApplyRead(s.c, v, leases)), probes, bus)
  }

  function OnStop(s: State): State {
    FillAll(s, NotRunning).(exited := true)
  }

  predicate Enabled(s: State, e: Event) {
    !s.exited && (e.ReadFailed? || e.ReadDone? ==> s.c.reading.Some?)
  }

  function Step(s: State, e: Event): State {
    if !Enabled(s, e) then s
    else match e
      case LeaseWon(stale) => s.(c := MaybeFetch(Clear(s.c), stale))
      case LeaseRemoved => s.(c := Clear(s.c))
      case Submit(m, stale, probes, bus) => OnSubmit(s, m, stale, probes, bus)
      case VersionUpdate => s.(c := Clear(s.c))
      case ReadFailed => OnReadFailed(s)
      case ReadDone(v, leases, probes, bus) => OnReadDone(s, v, leases, probes, bus)
      case Stop => OnStop(s)
  }

  function Run(s: State, es: seq<Event>): State {
    if es == [] then s else Step(Run(s, es[..|es| - 1]), es[|es| - 1])
  }

  // ---- Every request is in exactly one place ----

  ghost function Ids(rs: seq<Request>): seq<nat> {
    seq(|rs|, i requires 0 <= i < |rs| => rs[i].serial)
  }

  ghost function AnsweredIds(rs: seq<Reply>): seq<nat> {
    seq(|rs|, i requires 0 <= i < |rs| => rs[i].request.serial)
  }

  ghost function Numbers(n: nat): seq<nat> {
    seq(n, i => i)
  }

  /** The places a received request can be in, with multiplicity. */
  ghost function Places(q: Queues, log: Log): multiset<nat> {
    multiset(AnsweredIds(log.replies)) + multiset(Ids(log.dropped)) + multiset(Ids(q.requests))
    + multiset(Ids(q.pending))
  }

  ghost predicate Conserved(q: Queues, log: Log) {
    Places(q, log) == multiset(Numbers(log.received))
  }

  lemma IdsConcat(a: seq<Request>, b: seq<Request>)
    ensures Ids(a + b) == Ids(a) + Ids(b)
  {}

  lemma AnsweredConcat(a: seq<Reply>, b: seq<Reply>)
    ensures AnsweredIds(a + b) == AnsweredIds(a) + AnsweredIds(b)
  {}

  lemma AnswerAllIds(rs: seq<Request>, a: Answer)
    ensures AnsweredIds(AnswerAll(rs, a)) == Ids(rs)
  {}

  ghost function BatchIds(b: Batch): multiset<nat> {
    multiset(Ids(b.accepted)) + multiset(Ids(b.reread)) + multiset(AnsweredIds(b.replies)) + multiset(Ids(b.dropped))
  }

  lemma PlaceConserves(b: Batch, r: Request, p: Probe, c: Chain)
    ensures BatchIds(Place(b, r, p, c)) == BatchIds(b) + multiset{r.serial}
  {
    var t := Place(b, r, p, c);
    assert Ids([r]) == [r.serial] && Ids([Checked(r)]) == [r.serial];
    if t.dropped != b.dropped {
      IdsConcat(b.dropped, [r]);
    } else if t.accepted != b.accepted {
      IdsConcat(b.accepted, [Checked(r)]);
    } else if t.reread != b.reread {
      var w := Checked(r).(reread := true, missedAt := c.started);
      assert Ids([w]) == [r.serial];
      IdsConcat(b.reread, [w]);
    } else {
      var a := t.replies[|b.replies|];
      assert AnsweredIds([a]) == [r.serial];
      AnsweredConcat(b.replies, [a]);
    }
  }

  /** A validation pass neither loses nor repeats a request. */
  lemma {:induction false} SortConserves(rs: seq<Request>, probes: seq<Probe>, c: Chain)
    ensures BatchIds(Sort(rs, probes, c)) == multiset(Ids(rs))
  {
    if rs != [] {
      var front, last := rs[..|rs| - 1], rs[|rs| - 1];
      SortConserves(front, probes, c);
      PlaceConserves(Sort(front, probes, c), last, ProbeAt(probes, |rs| - 1), c);
      assert rs == front + [last];
      IdsConcat(front, [last]);
      assert Ids([last]) == [last.serial];
    }
  }

  lemma ReceiveConserves(s: State, m: Manifest)
    requires Conserved(s.q, s.log)
    ensures Conserved(Receive(s, m).q, Receive(s, m).log)
  {
    var r := Request(s.log.received, m, false, 0, 0);
    IdsConcat(s.q.requests, [r]);
    assert Ids([r]) == [r.serial];
    assert Numbers(s.log.received + 1) == Numbers(s.log.received) + [r.serial];
  }

  lemma FillAllConserves(s: State, a: Answer)
    requires Conserved(s.q, s.log)
    ensures Conserved(FillAll(s, a).q, FillAll(s, a).log)
  {
    var one, two := AnswerAll(s.q.pending, a), AnswerAll(s.q.requests, a);
    AnsweredConcat(s.log.replies, one);
    AnsweredConcat(s.log.replies + one, two);
    AnswerAllIds(s.q.pending, a);
    AnswerAllIds(s.q.requests, a);
  }

  lemma PublishedConserves(s: State, bus: seq<bool>)
    requires s.q.manifests != [] && Conserved(s.q, s.log)
    ensures Conserved(Published(s, bus).q, Published(s, bus).log)
  {
    AnsweredConcat(s.log.replies, AnswerAll(s.q.pending, Accepting(s)));
    AnswerAllIds(s.q.pending, Accepting(s));
  }

  lemma TakeConserves(s: State, b: Batch)
    requires Conserved(s.q, s.log) && BatchIds(b) == multiset(Ids(s.q.requests))
    ensures Conserved(TakeBatch(s, b).q, TakeBatch(s, b).log)
  {
    AnsweredConcat(s.log.replies, b.replies);
    IdsConcat(s.log.dropped, b.dropped);
    IdsConcat(s.q.pending, b.accepted);
  }

  lemma ProcessConserves(s: State, probes: seq<Probe>, bus: seq<bool>)
    requires Conserved(s.q, s.log)
    ensures Conserved(Process(s, probes, bus).q, Process(s, probes, bus).log)
  {
    if s.c.fetched && s.q.requests != [] {
      SortConserves(s.q.requests, probes, s.c);
      TakeConserves(s, Sort(s.q.requests, probes, s.c));
    }
    var t := Validate(s, probes);
    EmitConserves(t, bus);
  }

  lemma EmitConserves(s: State, bus: seq<bool>)
    requires Conserved(s.q, s.log)
    ensures Conserved(MaybeEmit(s, bus).q, MaybeEmit(s, bus).log)
  {
    FillAllConserves(s, NoLease);
    if s.q.manifests != [] { PublishedConserves(s, bus); }
  }

  lemma StepConserves(s: State, e: Event)
    requires Conserved(s.q, s.log)
    ensures Conserved(Step(s, e).q, Step(s, e).log)
  {
    if Enabled(s, e) {
      match e
      case Submit(m, stale, probes, bus) =>
        ReceiveConserves(s, m);
        ProcessConserves(Receive(s, m).(c := MaybeFetch(s.c, stale)), probes, bus);
      case ReadFailed => FillAllConserves(s.(c := s.c.(reading := None)), FetchFailed);
      case ReadDone(v, leases, probes, bus) => ProcessConserves(s.(c := ApplyRead(s.c, v, leases)), probes, bus);
      case Stop => FillAllConserves(s, NotRunning);
      case _ =>
    }
  }

  // ---- What is known of each request ----

  /** A request waiting for a read numbered `k` or later: one waiting again was checked once, and its mismatch came
      before read `k` was started. */
  ghost predicate Waiting(rs: seq<Request>, k: nat) {
    forall i | 0 <= i < |rs| ::
      rs[i].checks == (if rs[i].reread then 1 else 0) && (rs[i].reread ==> rs[i].missedAt < k)
  }

  ghost predicate AllMatch(rs: seq<Request>, h: Hash) {
    forall i | 0 <= i < |rs| :: rs[i].manifest.version == Some(h) && 1 <= rs[i].checks <= 2
  }

  ghost predicate AllMissed(rs: seq<Request>, started: nat) {
    forall i | 0 <= i < |rs| :: rs[i].reread && rs[i].checks == 1 && rs[i].missedAt == started
  }

  /** Refused for its version only after a second check, by a read started after the first mismatch; accepted only
      once a manifest with its version, the expected one, was handed to the bus for every lease there was. */
  ghost predicate ReplySound(a: Reply, published: seq<Publication>) {
    && a.request.checks <= 2
    && match a.answer
       case VersionMismatch(basis, h) =>
         && a.request.reread && a.request.checks == 2 && a.request.missedAt < basis
         && a.request.manifest.version != Some(h)
       case Success(m, h, leases, at) =>
         && m.version == Some(h) && a.request.manifest.version == Some(h)
         && leases != [] && at + |leases| <= |published|
         && forall k | 0 <= k < |leases| :: HandedOver(published[at + k], leases[k], m)
       case _ => true
  }

  predicate HandedOver(p: Publication, lease: Lease, m: Manifest) {
    p.lease == lease && p.manifest == m
  }

  ghost predicate RepliesSound(rs: seq<Reply>, published: seq<Publication>) {
    forall i | 0 <= i < |rs| :: ReplySound(rs[i], published)
  }

  ghost predicate AtMostTwice(rs: seq<Request>) {
    forall i | 0 <= i < |rs| :: rs[i].checks <= 2
  }

  lemma PlaceSound(b: Batch, r: Request, p: Probe, c: Chain, pub: seq<Publication>)
    requires Waiting([r], c.applied)
    requires AllMatch(b.accepted, c.expected.hash) && AllMissed(b.reread, c.started)
    requires RepliesSound(b.replies, pub) && AtMostTwice(b.dropped)
    ensures var t := Place(b, r, p, c);
            && AllMatch(t.accepted, c.expected.hash) && AllMissed(t.reread, c.started)
            && RepliesSound(t.replies, pub) && AtMostTwice(t.dropped)
  {
    assert [r][0] == r;
  }

  lemma {:induction false} SortSound(rs: seq<Request>, probes: seq<Probe>, c: Chain, pub: seq<Publication>)
    requires Waiting(rs, c.applied)
    ensures var b := Sort(rs, probes, c);
            && AllMatch(b.accepted, c.expected.hash) && AllMissed(b.reread, c.started)
            && RepliesSound(b.replies, pub) && AtMostTwice(b.dropped)
  {
    if rs != [] {
      var front, last := rs[..|rs| - 1], rs[|rs| - 1];
      assert Waiting([last], c.applied);
      SortSound(front, probes, c, pub);
      PlaceSound(Sort(front, probes, c), last, ProbeAt(probes, |rs| - 1), c, pub);
    }
  }

  ghost predicate Head(s: State) {
    && s.q.pending == []
    && (s.q.requests != [] ==> s.c.reading.Some?)
    && (s.c.reading.Some? ==> s.c.reading.value == s.c.started && Waiting(s.q.requests, s.c.started))
    && s.c.applied <= s.c.started
  }

  ghost predicate LogSound(log: Log) {
    RepliesSound(log.replies, log.published) && AtMostTwice(log.dropped)
  }

  /** The state between a validation pass and the end of the step. */
  ghost predicate Judged(s: State) {
    && AllMatch(s.q.pending, s.c.expected.hash)
    && AllMissed(s.q.requests, s.c.started)
    && (s.q.pending != [] ==>
          s.c.fetched && s.q.manifests != [] && Latest(s.q).version == Some(s.c.expected.hash))
  }

  lemma ValidateSound(s: State, probes: seq<Probe>)
    requires s.c.fetched && s.q.pending == [] && Waiting(s.q.requests, s.c.applied)
    requires LogSound(s.log)
    ensures var t := Validate(s, probes); Judged(t) && LogSound(t.log) && t.c == s.c && t.exited == s.exited
  {
    if s.q.requests != [] {
      SortSound(s.q.requests, probes, s.c, s.log.published);
      var b := Sort(s.q.requests, probes, s.c);
      assert s.q.pending + b.accepted == b.accepted;
    }
  }

  lemma FilledSound(s: State)
    requires Judged(s) && LogSound(s.log)
    ensures LogSound(FillAll(s, NoLease).log)
  {}

  lemma ReplyStays(a: Reply, published: seq<Publication>, more: seq<Publication>)
    requires ReplySound(a, published)
    ensures ReplySound(a, published + more)
  {
    if a.answer.Success? {
      forall k | 0 <= k < |a.answer.leases|
        ensures HandedOver((published + more)[a.answer.at + k], a.answer.leases[k], a.answer.published)
      {
        assert (published + more)[a.answer.at + k] == published[a.answer.at + k];
      }
    }
  }

  lemma AcceptedSound(s: State, r: Request, bus: seq<bool>)
    requires Judged(s) && r in s.q.pending && s.c.leases != []
    ensures s.q.manifests != []
    ensures ReplySound(Reply(r, Accepting(s)), s.log.published + PublishAll(s.c.leases, Latest(s.q), bus))
  {
    var sent := PublishAll(s.c.leases, Latest(s.q), bus);
    forall k | 0 <= k < |sent|
      ensures HandedOver((s.log.published + sent)[|s.log.published| + k], s.c.leases[k], Latest(s.q))
    {
      assert (s.log.published + sent)[|s.log.published| + k] == sent[k];
    }
  }

  lemma PublishedSound(s: State, bus: seq<bool>)
    requires Judged(s) && LogSound(s.log) && s.q.manifests != [] && s.c.leases != []
    ensures LogSound(Published(s, bus).log)
  {
    var sent := PublishAll(s.c.leases, Latest(s.q), bus);
    var rs := Published(s, bus).log.replies;
    forall i | 0 <= i < |rs| ensures ReplySound(rs[i], s.log.published + sent) {
      if i < |s.log.replies| {
        ReplyStays(s.log.replies[i], s.log.published, sent);
      } else {
        AcceptedSound(s, s.q.pending[i - |s.log.replies|], bus);
      }
    }
  }

  lemma EmitSound(s: State, bus: seq<bool>)
    requires Judged(s) && LogSound(s.log)
    ensures var t := MaybeEmit(s, bus);
            && LogSound(t.log) && t.q.pending == [] && AllMissed(t.q.requests, s.c.started)
            && t.c == s.c && t.exited == s.exited
  {
    if s.c.leases == [] {
      FilledSound(s);
    } else if s.q.manifests != [] {
      PublishedSound(s, bus);
    }
  }

  lemma ProcessSound(s: State, probes: seq<Probe>, bus: seq<bool>)
    requires s.c.fetched && s.c.reading.None? && s.q.pending == [] && Waiting(s.q.requests, s.c.applied)
    requires LogSound(s.log) && s.c.applied <= s.c.started
    ensures Head(Process(s, probes, bus)) && LogSound(Process(s, probes, bus).log)
  {
    ValidateSound(s, probes);
    EmitSound(Validate(s, probes), bus);
  }

  lemma StopSound(s: State, a: Answer)
    requires Head(s) && LogSound(s.log)
    requires !a.Success? && !a.VersionMismatch?
    ensures LogSound(FillAll(s, a).log)
  {}

  lemma SubmitSound(s: State, m: Manifest, stale: bool, probes: seq<Probe>, bus: seq<bool>)
    requires Head(s) && LogSound(s.log)
    ensures Head(OnSubmit(s, m, stale, probes, bus)) && LogSound(OnSubmit(s, m, stale, probes, bus).log)
  {
    var t := Receive(s, m).(c := MaybeFetch(s.c, stale));
    if t.c.reading.None? {
      ProcessSound(t, probes, bus);
    }
  }

  lemma StepSound(s: State, e: Event)
    requires Head(s) && LogSound(s.log)
    ensures Head(Step(s, e)) && LogSound(Step(s, e).log)
  {
    if Enabled(s, e) {
      match e
      case Submit(m, stale, probes, bus) => SubmitSound(s, m, stale, probes, bus);
      case ReadFailed => StopSound(s, FetchFailed);
      case ReadDone(v, leases, probes, bus) => ProcessSound(s.(c := ApplyRead(s.c, v, leases)), probes, bus);
      case Stop => StopSound(s, NotRunning);
      case _ =>
    }
  }

  ghost predicate Inv(s: State) {
    Head(s) && LogSound(s.log) && Conserved(s.q, s.log)
  }

  lemma {:induction false} RunKeeps(s: State, es: seq<Event>)
    requires Inv(s)
    ensures Inv(Run(s, es))
  {
    if es != [] {
      var t := Run(s, es[..|es| - 1]);
      RunKeeps(s, es[..|es| - 1]);
      StepSound(t, es[|es| - 1]);
      StepConserves(t, es[|es| - 1]);
    }
  }

  lemma InitInv()
    ensures Inv(Init())
  {}

  lemma {:induction false} RunAppend(s: State, es: seq<Event>, more: seq<Event>)
    ensures Run(s, es + more) == Run(Run(s, es), more)
  {
    if more == [] {
      assert es + more == es;
    } else {
      RunAppend(s, es, more[..|more| - 1]);
      assert (es + more)[..|es + more| - 1] == es + more[..|more| - 1];
    }
  }

  /** A state some run reaches, and with it everything below about runs. */
  ghost predicate Reachable(s: State) {
    exists es: seq<Event> :: s == Run(Init(), es)
  }

  lemma ReachableStep(s: State, e: Event)
    requires Reachable(s)
    ensures Reachable(Step(s, e))
  {
    var es :| s == Run(Init(), es);
    assert (es + [e])[..|es|] == es;
    assert Step(s, e) == Run(Init(), es + [e]);
  }

  // ---- Theorems about every run ----

  lemma {:induction false} NumbersOnce(n: nat, k: nat)
    ensures multiset(Numbers(n))[k] == if k < n then 1 else 0
  {
    if n > 0 {
      assert Numbers(n) == Numbers(n - 1) + [n - 1];
      NumbersOnce(n - 1, k);
    } else {
      assert Numbers(0) == [];
    }
  }

  /** In every run each request received is in exactly one of: answered, dropped because its context ended, waiting for
      a read.  Nothing else is in any of them, so none is answered twice. */
  lemma {:induction false} ExactlyOnePlace(es: seq<Event>, n: nat)
    ensures var s := Run(Init(), es);
            multiset(AnsweredIds(s.log.replies))[n] + multiset(Ids(s.log.dropped))[n] + multiset(Ids(s.q.requests))[n]
            == if n < s.log.received then 1 else 0
  {
    InitInv();
    RunKeeps(Init(), es);
    NumbersOnce(Run(Init(), es).log.received, n);
  }

  /** In every run, at each loop head no accepted request is left unanswered, requests wait only while a chain read is
      running, and a loop that ended left none waiting. */
  lemma {:induction false} NoneStuck(es: seq<Event>)
    ensures var s := Run(Init(), es);
            && s.q.pending == []
            && (s.q.requests != [] ==> s.c.reading.Some?)
            && (s.exited ==> s.q.requests == [])
  {
    InitInv();
    RunKeeps(Init(), es);
    ExitedEmpty(es);
  }

  lemma {:induction false} ExitedEmpty(es: seq<Event>)
    ensures Run(Init(), es).exited ==> Run(Init(), es).q.requests == []
  {
    if es != [] {
      ExitedEmpty(es[..|es| - 1]);
      var t := Run(Init(), es[..|es| - 1]);
      var e := es[|es| - 1];
      if Enabled(t, e) && !e.Stop? { StaysUp(t, e); }
    }
  }

  lemma StaysUp(s: State, e: Event)
    requires Enabled(s, e) && !e.Stop?
    ensures !Step(s, e).exited
  {}

  /** In every run a request is validated at most twice, whether it was answered or dropped, and at most once while it
      waits. */
  lemma {:induction false} ValidatedAtMostTwice(es: seq<Event>)
    ensures var s := Run(Init(), es);
            && (forall i | 0 <= i < |s.log.replies| :: s.log.replies[i].request.checks <= 2)
            && (forall i | 0 <= i < |s.log.dropped| :: s.log.dropped[i].checks <= 2)
            && (forall i | 0 <= i < |s.q.requests| :: s.q.requests[i].checks <= 1)
  {
    InitInv();
    RunKeeps(Init(), es);
    var s := Run(Init(), es);
    forall i | 0 <= i < |s.log.replies| ensures s.log.replies[i].request.checks <= 2 {
      assert ReplySound(s.log.replies[i], s.log.published);
    }
  }

  /** In every run a request is refused for its version only after its second validation, against a chain read started
      after its first mismatch. */
  lemma {:induction false} RefusedOnlyAfterReread(es: seq<Event>, i: nat)
    requires i < |Run(Init(), es).log.replies|
    ensures var a := Run(Init(), es).log.replies[i];
            && a.request.checks <= 2
            && (a.answer.VersionMismatch? ==>
                  && a.request.reread && a.request.checks == 2 && a.request.missedAt < a.answer.basis
                  && a.request.manifest.version != Some(a.answer.expected))
  {
    InitInv();
    RunKeeps(Init(), es);
    assert ReplySound(Run(Init(), es).log.replies[i], Run(Init(), es).log.published);
  }

  /** In every run a request told it succeeded has the version the chain expected then, and a manifest of that same
      version was handed to the bus, before the answer, for each of one or more leases. */
  lemma {:induction false} SuccessWasAttempted(es: seq<Event>, i: nat)
    requires i < |Run(Init(), es).log.replies| && Run(Init(), es).log.replies[i].answer.Success?
    ensures var s := Run(Init(), es);
            var r, a := s.log.replies[i].request, s.log.replies[i].answer;
            && r.manifest.version == Some(a.expected) && a.published.version == Some(a.expected)
            && a.leases != [] && a.at + |a.leases| <= |s.log.published|
            && forall k | 0 <= k < |a.leases| :: HandedOver(s.log.published[a.at + k], a.leases[k], a.published)
  {
    InitInv();
    RunKeeps(Init(), es);
    assert ReplySound(Run(Init(), es).log.replies[i], Run(Init(), es).log.published);
  }

  // ---- When a success means a delivered manifest ----

  /** The leases the manager knows of, and the bus's answers, while it handles an event. */
  function LocalLeases(s: State, e: Event): seq<Lease> {
    if e.ReadDone? then e.leases else s.c.leases
  }

  function BusOf(e: Event): seq<bool> {
    if e.ReadDone? || e.Submit? then e.bus else []
  }

  /** Each of the replies from `n` on that is a success hands the latest manifest over for the given leases, with the
      bus's answers in their order. */
  ghost predicate SentWith(t: State, n: nat, leases: seq<Lease>, bus: seq<bool>) {
    forall i | n <= i < |t.log.replies| && t.log.replies[i].answer.Success? ::
      var a := t.log.replies[i].answer;
      && a.leases == leases && a.at + |leases| <= |t.log.published|
      && forall k | 0 <= k < |leases| ::
           t.log.published[a.at + k] == Publication(leases[k], a.published, BusTakes(bus, k))
  }

  lemma {:induction false} SortSendsNoSuccess(rs: seq<Request>, probes: seq<Probe>, c: Chain)
    ensures forall i | 0 <= i < |Sort(rs, probes, c).replies| :: !Sort(rs, probes, c).replies[i].answer.Success?
  {
    if rs != [] {
      SortSendsNoSuccess(rs[..|rs| - 1], probes, c);
    }
  }

  lemma EmitSends(s: State, n: nat, bus: seq<bool>)
    requires n <= |s.log.replies| && forall i | n <= i < |s.log.replies| :: !s.log.replies[i].answer.Success?
    ensures SentWith(MaybeEmit(s, bus), n, s.c.leases, bus)
  {
    var t := MaybeEmit(s, bus);
    forall i | n <= i < |t.log.replies| && t.log.replies[i].answer.Success?
      ensures t.log.replies[i].answer == Accepting(s) && t.log == Published(s, bus).log
    {}
  }

  lemma ProcessSends(s: State, probes: seq<Probe>, bus: seq<bool>)
    ensures SentWith(Process(s, probes, bus), |s.log.replies|, s.c.leases, bus)
  {
    SortSendsNoSuccess(s.q.requests, probes, s.c);
    EmitSends(Validate(s, probes), |s.log.replies|, bus);
  }

  lemma StepSends(s: State, e: Event)
    ensures SentWith(Step(s, e), |s.log.replies|, LocalLeases(s, e), BusOf(e))
  {
    if Enabled(s, e) {
      match e
      case Submit(m, stale, probes, bus) => ProcessSends(Receive(s, m).(c := MaybeFetch(s.c, stale)), probes, bus);
      case ReadDone(v, leases, probes, bus) => ProcessSends(s.(c := ApplyRead(s.c, v, leases)), probes, bus);
      case _ =>
    }
  }

  lemma ProcessLogGrows(s: State, probes: seq<Probe>, bus: seq<bool>)
    ensures var log := Process(s, probes, bus).log; s.log.replies <= log.replies && s.log.published <= log.published
  {}

  lemma StepLogGrows(s: State, e: Event)
    ensures s.log.replies <= Step(s, e).log.replies && s.log.published <= Step(s, e).log.published
  {
    if Enabled(s, e) {
      match e
      case Submit(m, stale, probes, bus) => ProcessLogGrows(Receive(s, m).(c := MaybeFetch(s.c, stale)), probes, bus);
      case ReadDone(v, leases, probes, bus) => ProcessLogGrows(s.(c := ApplyRead(s.c, v, leases)), probes, bus);
      case _ =>
    }
  }

  lemma {:induction false} RunLogGrows(s: State, es: seq<Event>)
    ensures s.log.replies <= Run(s, es).log.replies && s.log.published <= Run(s, es).log.published
  {
    if es != [] {
      RunLogGrows(s, es[..|es| - 1]);
      StepLogGrows(Run(s, es[..|es| - 1]), es[|es| - 1]);
    }
  }

  /** The bus took the manifest a success names, for its `k`th lease. */
  ghost predicate Delivered(log: Log, a: Answer, k: nat)
    requires a.Success? && k < |a.leases| && a.at + |a.leases| <= |log.published|
  {
    log.published[a.at + k].ok
  }

  lemma StaysDelivered(t: State, u: State, n: nat, leases: seq<Lease>, bus: seq<bool>, i: nat)
    requires SentWith(t, n, leases, bus) && t.log.replies <= u.log.replies && t.log.published <= u.log.published
    requires n <= i < |t.log.replies| && t.log.replies[i].answer.Success?
    ensures u.log.replies[i] == t.log.replies[i]
    ensures var a := u.log.replies[i].answer;
            && a.leases == leases && a.at + |a.leases| <= |u.log.published|
            && forall k | 0 <= k < |a.leases| :: Delivered(u.log, a, k) <==> BusTakes(bus, k)
  {
    assert u.log.replies[i] == t.log.replies[i];
  }

  /** A success sent while handling event `e` names the leases the manager knew of then, and in every continuation the
      manifest reached a given one of them if and only if the bus took that one's publication. */
  lemma {:induction false} SuccessDelivered(es: seq<Event>, e: Event, more: seq<Event>, i: nat)
    requires |Run(Init(), es).log.replies| <= i < |Run(Init(), es + [e]).log.replies|
    requires Run(Init(), es + [e]).log.replies[i].answer.Success?
    ensures var log := Run(Init(), es + [e] + more).log;
            && i < |log.replies| && log.replies[i].answer.Success?
            && var a := log.replies[i].answer;
               && a.leases == LocalLeases(Run(Init(), es), e) && a.at + |a.leases| <= |log.published|
               && forall k | 0 <= k < |a.leases| :: Delivered(log, a, k) <==> BusTakes(BusOf(e), k)
  {
    var s, t, u := Run(Init(), es), Run(Init(), es + [e]), Run(Init(), es + [e] + more);
    RunOneMore(es, e);
    StepSends(s, e);
    RunAppend(Init(), es + [e], more);
    RunLogGrows(t, more);
    StaysDelivered(t, u, |s.log.replies|, LocalLeases(s, e), BusOf(e), i);
  }

  lemma {:induction false} RunOneMore(es: seq<Event>, e: Event)
    ensures Run(Init(), es + [e]) == Step(Run(Init(), es), e)
  {
    assert (es + [e])[..|es|] == es;
  }

  /** So a success need not mean a manifest delivered: here the bus refuses the only publication, and the request is
      still told that it succeeded. */
  lemma SuccessUndelivered(h: Hash, lease: Lease)
    requires h != []
    ensures var m := Manifest("", true, true, Some(h));
            var es := [Submit(m, false, [], []), ReadDone(Version(h, 1), [lease], [], [false])];
            var log := Run(Init(), es).log;
            && log.replies == [Reply(Request(0, m, false, 1, 0), Success(m, h, [lease], 0))]
            && log.published == [Publication(lease, m, false)]
  {
    var m := Manifest("", true, true, Some(h));
    var one, two := Submit(m, false, [], []), ReadDone(Version(h, 1), [lease], [], [false]);
    var s := Step(Init(), one);
    var r := Request(0, m, false, 0, 0);
    RunOneMore([], one);
    RunOneMore([one], two);
    assert [] + [one] == [one] && [one] + [two] == [one, two];
    assert s.q.requests == [r] && s.c.reading == Some(1);
    var c := ApplyRead(s.c, Version(h, 1), [lease]);
    assert [r][..0] == [];
    assert Sort([r], [], c) == Batch([Checked(r)], [], [], []);
  }

  // ---- What two reads settle ----

  ghost predicate AllReread(rs: seq<Request>) {
    forall i | 0 <= i < |rs| :: rs[i].reread
  }

  lemma {:induction false} KeptAreReread(rs: seq<Request>, probes: seq<Probe>, c: Chain)
    ensures AllReread(Sort(rs, probes, c).reread)
    ensures AllReread(rs) ==> Sort(rs, probes, c).reread == []
  {
    if rs != [] {
      KeptAreReread(rs[..|rs| - 1], probes, c);
    }
  }

  lemma ReadSettles(s: State, v: Version, leases: seq<Lease>, probes: seq<Probe>, bus: seq<bool>)
    requires s.c.reading.Some?
    ensures var t := OnReadDone(s, v, leases, probes, bus);
            AllReread(t.q.requests) && (AllReread(s.q.requests) ==> t.q.requests == [])
  {
    KeptAreReread(s.q.requests, probes, ApplyRead(s.c, v, leases));
  }

  /** Without a submission, the requests waiting stay as they are, or are those of a read's second look. */
  lemma WaitingStep(s: State, e: Event)
    requires !e.Submit?
    ensures Step(s, e).q.requests == s.q.requests || AllReread(Step(s, e).q.requests)
    ensures AllReread(s.q.requests) ==> AllReread(Step(s, e).q.requests)
  {
    if Enabled(s, e) && e.ReadDone? { ReadSettles(s, e.version, e.leases, e.probes, e.bus); }
  }

  lemma {:induction false} WaitingRun(s: State, es: seq<Event>)
    requires AllReread(s.q.requests) && forall e | e in es :: !e.Submit?
    ensures AllReread(Run(s, es).q.requests)
  {
    if es != [] {
      WaitingRun(s, es[..|es| - 1]);
      WaitingStep(Run(s, es[..|es| - 1]), es[|es| - 1]);
    }
  }

  lemma ReadLeaves(s: State, e: Event)
    requires Head(s) && e.ReadDone? && (s.exited ==> s.q.requests == [])
    ensures AllReread(Step(s, e).q.requests)
    ensures AllReread(s.q.requests) ==> Step(s, e).q.requests == []
  {
    if Enabled(s, e) { ReadSettles(s, e.version, e.leases, e.probes, e.bus); }
  }

  /** Two chain reads settle everything that waits: in every run, however many events other than submissions come
      between them, a second completed read leaves no request waiting, whatever the reads say. */
  lemma {:induction false} TwoReadsSettle(es: seq<Event>, one: Event, between: seq<Event>, two: Event)
    requires one.ReadDone? && two.ReadDone? && forall e | e in between :: !e.Submit?
    ensures Run(Init(), es + [one] + between + [two]).q.requests == []
  {
    InitInv();
    RunKeeps(Init(), es);
    NoneStuck(es);
    ReadLeaves(Run(Init(), es), one);
    RunOneMore(es, one);
    RunAppend(Init(), es + [one], between);
    WaitingRun(Run(Init(), es + [one]), between);
    var mid := es + [one] + between;
    RunKeeps(Init(), mid);
    NoneStuck(mid);
    ReadLeaves(Run(Init(), mid), two);
    RunOneMore(mid, two);
  }

  // ---- The expected version ----

  /** `v` is the most recent of the reads with a hash among those at the greatest height such a read reported. */
  ghost predicate IsExpected(history: seq<Version>, v: Version) {
    || (v == Version([], 0) && forall j | 0 <= j < |history| :: history[j].hash == [])
    || exists i | 0 <= i < |history| :: LatestHighest(history, i) && history[i] == v
  }

  ghost predicate LatestHighest(history: seq<Version>, i: nat)
    requires i < |history|
  {
    && history[i].hash != []
    && (forall j | 0 <= j < |history| && history[j].hash != [] ::
          history[j].height <= history[i].height && (j > i ==> history[j].height < history[i].height))
  }

  lemma ExpectedUnique(history: seq<Version>, v: Version, w: Version)
    requires IsExpected(history, v) && IsExpected(history, w)
    ensures v == w
  {}

  lemma ExpectedGrows(history: seq<Version>, v: Version, read: Version)
    requires IsExpected(history, v)
    ensures IsExpected(history + [read], NewExpected(v, read))
  {
    var h := history + [read];
    var w := NewExpected(v, read);
    if w == read && read.hash != [] {
      assert LatestHighest(h, |history|);
    } else if v != Version([], 0) || exists i | 0 <= i < |history| :: LatestHighest(history, i) && history[i] == v {
      var i :| 0 <= i < |history| && LatestHighest(history, i) && history[i] == v;
      assert LatestHighest(h, i);
    }
  }

  lemma ProcessReads(s: State, probes: seq<Probe>, bus: seq<bool>)
    ensures var t := Process(s, probes, bus); t.c.expected == s.c.expected && t.c.history == s.c.history
  {}

  lemma StepExpected(s: State, e: Event)
    requires IsExpected(s.c.history, s.c.expected)
    ensures var t := Step(s, e);
            && IsExpected(t.c.history, t.c.expected)
            && s.c.expected.height <= t.c.expected.height
            && (t.c.expected == s.c.expected || e.ReadDone?)
  {
    if Enabled(s, e) {
      match e
      case Submit(m, stale, probes, bus) => ProcessReads(Receive(s, m).(c := MaybeFetch(s.c, stale)), probes, bus);
      case ReadDone(v, leases, probes, bus) =>
        ExpectedGrows(s.c.history, s.c.expected, v);
        ProcessReads(s.(c := ApplyRead(s.c, v, leases)), probes, bus);
      case _ =>
    }
  }

  lemma {:induction false} RunExpected(s: State, es: seq<Event>)
    requires IsExpected(s.c.history, s.c.expected)
    ensures var t := Run(s, es);
            IsExpected(t.c.history, t.c.expected) && s.c.expected.height <= t.c.expected.height
  {
    if es != [] {
      RunExpected(s, es[..|es| - 1]);
      StepExpected(Run(s, es[..|es| - 1]), es[|es| - 1]);
    }
  }

  /** In every run the expected version is the one `IsExpected` picks out, alone, from the reads applied so far. */
  lemma {:induction false} ExpectedIsLatestHighest(es: seq<Event>, v: Version)
    ensures var c := Run(Init(), es).c;
            IsExpected(c.history, v) <==> v == c.expected
  {
    RunExpected(Init(), es);
    var c := Run(Init(), es).c;
    if IsExpected(c.history, v) {
      ExpectedUnique(c.history, v, c.expected);
    }
  }

  /** In every continuation of a run the expected version's height does not decrease. */
  lemma {:induction false} HeightNeverDecreases(es: seq<Event>, more: seq<Event>)
    ensures Run(Init(), es).c.expected.height <= Run(Init(), es + more).c.expected.height
  {
    RunExpected(Init(), es);
    RunAppend(Init(), es, more);
    RunExpected(Run(Init(), es), more);
  }
}
