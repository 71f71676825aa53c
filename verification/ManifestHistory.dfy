/** The manifest manager told from its events: which chain data it goes by, when it reads the chain, what it publishes
    and what becomes of each request, in terms of what was delivered to the loop before. */
module ManifestHistory {
  import opened Market
  import opened ManifestLoop

  /** The last event was delivered: the loop took it. */
  ghost predicate Taken(es: seq<Event>)
    requires es != []
  {
    Enabled(Run(Init(), es[..|es| - 1]), es[|es| - 1])
  }

  /** After such an event the chain data read before is not to be used. */
  ghost predicate Outdates(e: Event) {
    e.LeaseWon? || e.LeaseRemoved? || e.VersionUpdate?
  }

  // ---- Nothing is decided on outdated data ----

  /** From the `n`th on, every answer is one that needs no chain data. */
  ghost predicate Undecided(log: Log, n: nat) {
    forall i | n <= i < |log.replies| :: log.replies[i].answer.FetchFailed? || log.replies[i].answer.NotRunning?
  }

  lemma UnreadStep(s: State, e: Event, n: nat)
    requires !s.c.fetched && !e.ReadDone? && n <= |s.log.replies| && Undecided(s.log, n)
    ensures var t := Step(s, e);
            !t.c.fetched && t.log.published == s.log.published && s.log.replies <= t.log.replies && Undecided(t.log, n)
  {}

  lemma {:induction false} UnreadRun(s: State, es: seq<Event>, n: nat)
    requires !s.c.fetched && n <= |s.log.replies| && Undecided(s.log, n) && forall e | e in es :: !e.ReadDone?
    ensures var t := Run(s, es);
            !t.c.fetched && t.log.published == s.log.published && s.log.replies <= t.log.replies && Undecided(t.log, n)
  {
    if es != [] {
      UnreadRun(s, es[..|es| - 1], n);
      UnreadStep(Run(s, es[..|es| - 1]), es[|es| - 1], n);
    }
  }

  lemma OutdatedStep(s: State, e: Event)
    requires Outdates(e) && Enabled(s, e)
    ensures !Step(s, e).c.fetched && Step(s, e).log == s.log
  {}

  /** In every run, from a new version, a lease won or a lease lost on, and until another chain read completes, nothing
      is published and no request is told that it succeeded or that it is refused: whoever submits waits for that read.
      */
  lemma {:induction false} NothingOnOutdatedData(es: seq<Event>, e: Event, more: seq<Event>)
    requires Outdates(e) && Enabled(Run(Init(), es), e) && forall x | x in more :: !x.ReadDone?
    ensures var s, t := Run(Init(), es), Run(Init(), es + [e] + more);
            t.log.published == s.log.published && Undecided(t.log, |s.log.replies|)
  {
    var s, t := Run(Init(), es), Run(Init(), es + [e]);
    RunOneMore(es, e);
    OutdatedStep(s, e);
    UnreadRun(t, more, |s.log.replies|);
    RunAppend(Init(), es + [e], more);
  }

  // ---- The chain data at hand, and the reads ----

  ghost function Reads(es: seq<Event>): nat {
    Run(Init(), es).c.started
  }

  /** The leases of the last chain read, unless something outdated it or another read was started since. */
  ghost function Known(es: seq<Event>): Option<seq<Lease>> {
    if es == [] then None
    else
      var front, e := es[..|es| - 1], es[|es| - 1];
      if Reads(es) != Reads(front) || (Taken(es) && Outdates(e)) then None
      else if Taken(es) && e.ReadDone? then Some(e.leases)
      else Known(front)
  }

  /** The read started last has not ended. */
  ghost predicate Reading(es: seq<Event>) {
    es != [] && var front, e := es[..|es| - 1], es[|es| - 1];
    if Reads(es) != Reads(front) then true
    else !(Taken(es) && (e.ReadDone? || e.ReadFailed?)) && Reading(front)
  }

  /** The versions the completed reads gave. */
  ghost function Versions(es: seq<Event>): seq<Version> {
    if es == [] then []
    else
      var e := es[|es| - 1];
      Versions(es[..|es| - 1]) + if e.ReadDone? && Taken(es) then [e.version] else []
  }

  /** The chain data an event is handled with: its own if it is a completed read, and for a submission the data known
      unless that is stale. */
  ghost function Data(e: Event, known: Option<seq<Lease>>, reading: bool): Option<seq<Lease>> {
    match e
    case ReadDone(_, leases, _, _) => Some(leases)
    case Submit(_, stale, _, _) => if reading || stale then None else known
    case _ => None
  }

  ghost predicate Means(c: Chain, known: Option<seq<Lease>>, reading: bool) {
    && (c.fetched <==> known.Some?)
    && (known.Some? ==> c.leases == known.value)
    && (c.reading.Some? <==> reading)
    && (reading ==> known.None?)
  }

  /** Whether handling the event starts a chain read, given the requests left waiting. */
  ghost predicate StartsRead(e: Event, known: Option<seq<Lease>>, reading: bool, waiting: seq<Request>) {
    match e
    case LeaseWon(_) => !reading
    case Submit(_, stale, _, _) => !reading && (known.None? || stale || waiting != [])
    case ReadDone(_, _, _, _) => waiting != []
    case _ => false
  }

  lemma ProcessChain(s: State, probes: seq<Probe>, bus: seq<bool>)
    ensures var t := Process(s, probes, bus); t.c == if t.q.requests == [] then s.c else StartRead(s.c)
  {}

  lemma StepMeans(s: State, e: Event, known: Option<seq<Lease>>, reading: bool)
    requires Head(s) && Means(s.c, known, reading) && Enabled(s, e)
    ensures var t := Step(s, e);
            && (t.c.started != s.c.started <==> StartsRead(e, known, reading, t.q.requests))
            && t.c.started <= s.c.started + 1
            && Means(t.c, if t.c.started != s.c.started || Outdates(e) then None
                          else if e.ReadDone? then Some(e.leases) else known,
                     t.c.started != s.c.started || (!e.ReadDone? && !e.ReadFailed? && reading))
            && t.c.history == s.c.history + (if e.ReadDone? then [e.version] else [])
  {
    match e
    case Submit(m, stale, probes, bus) => ProcessChain(Receive(s, m).(c := MaybeFetch(s.c, stale)), probes, bus);
    case ReadDone(v, leases, probes, bus) => ProcessChain(s.(c := ApplyRead(s.c, v, leases)), probes, bus);
    case _ =>
  }

  lemma {:induction false} RunMeans(es: seq<Event>)
    ensures Inv(Run(Init(), es)) && Means(Run(Init(), es).c, Known(es), Reading(es))
    ensures Run(Init(), es).c.history == Versions(es)
  {
    InitInv();
    RunKeeps(Init(), es);
    if es != [] {
      var front, e := es[..|es| - 1], es[|es| - 1];
      RunMeans(front);
      if Taken(es) { StepMeans(Run(Init(), front), e, Known(front), Reading(front)); }
    }
  }

  /** In every run an event starts a chain read, and only one, if and only if it is a lease won with no read running, a
      submission with no read running and no usable data or a version that does not match it, or a completed read that
      leaves requests waiting. */
  lemma {:induction false} ReadsExactly(es: seq<Event>, e: Event)
    requires Enabled(Run(Init(), es), e)
    ensures Reads(es + [e]) == Reads(es) +
            if StartsRead(e, Known(es), Reading(es), Run(Init(), es + [e]).q.requests) then 1 else 0
  {
    RunMeans(es);
    RunOneMore(es, e);
    StepMeans(Run(Init(), es), e, Known(es), Reading(es));
    StartedGrows(Run(Init(), es), e);
  }

  lemma StartedGrows(s: State, e: Event)
    ensures Step(s, e).c.started >= s.c.started
  {
    if Enabled(s, e) {
      match e
      case Submit(m, stale, probes, bus) => ProcessChain(Receive(s, m).(c := MaybeFetch(s.c, stale)), probes, bus);
      case ReadDone(v, leases, probes, bus) => ProcessChain(s.(c := ApplyRead(s.c, v, leases)), probes, bus);
      case _ =>
    }
  }

  /** In every run the version expected is the one that the versions of all completed reads pick out. */
  lemma {:induction false} ExpectedFromReads(es: seq<Event>)
    ensures IsExpected(Versions(es), Run(Init(), es).c.expected)
  {
    RunMeans(es);
    RunExpected(Init(), es);
  }

  // ---- Publications ----

  /** What handling an event publishes, given the data it is handled with, the manifests accepted before and with it,
      and the requests it leaves waiting: the manifest accepted last, for every lease of that data, unless all that was
      to be decided was put off. */
  ghost function Publishes(e: Event, data: Option<seq<Lease>>, before: seq<Manifest>, after: seq<Manifest>,
                           waiting: seq<Request>): seq<Publication>
  {
    if data.None? || after == [] || (waiting != [] && after == before) then []
    else PublishAll(data.value, after[|after| - 1], BusOf(e))
  }

  lemma ProcessPublishes(s: State, probes: seq<Probe>, bus: seq<bool>)
    requires s.c.fetched && s.q.pending == []
    ensures var t := Process(s, probes, bus);
            t.log.published == s.log.published +
            if t.q.manifests == [] || (t.q.requests != [] && t.q.manifests == s.q.manifests) then []
            else PublishAll(s.c.leases, Latest(t.q), bus)
  {}

  lemma SubmitPublishes(s: State, e: Event, known: Option<seq<Lease>>, reading: bool)
    requires Head(s) && Means(s.c, known, reading) && Enabled(s, e) && e.Submit?
    ensures var t := Step(s, e);
            t.log.published == s.log.published +
                               Publishes(e, Data(e, known, reading), s.q.manifests, t.q.manifests, t.q.requests)
  {
    if !reading && !e.stale && known.Some? { ProcessPublishes(Receive(s, e.manifest), e.probes, e.bus); }
  }

  lemma ReadPublishes(s: State, e: Event, known: Option<seq<Lease>>, reading: bool)
    requires Head(s) && Means(s.c, known, reading) && Enabled(s, e) && e.ReadDone?
    ensures var t := Step(s, e);
            t.log.published == s.log.published +
                               Publishes(e, Data(e, known, reading), s.q.manifests, t.q.manifests, t.q.requests)
  {
    ProcessPublishes(s.(c := ApplyRead(s.c, e.version, e.leases)), e.probes, e.bus);
  }

  lemma StepPublishes(s: State, e: Event, known: Option<seq<Lease>>, reading: bool)
    requires Head(s) && Means(s.c, known, reading) && Enabled(s, e)
    ensures var t := Step(s, e);
            t.log.published == s.log.published +
                               Publishes(e, Data(e, known, reading), s.q.manifests, t.q.manifests, t.q.requests)
  {
    if e.Submit? {
      SubmitPublishes(s, e, known, reading);
    } else if e.ReadDone? {
      ReadPublishes(s, e, known, reading);
    }
  }

  /** In every run an event publishes exactly the manifest accepted last, for every lease of the data it is handled
      with: so a lease won gets it with the next completed read, with no new submission.  It publishes nothing without
      data, before a first manifest is accepted, or if it accepts none and leaves requests waiting. */
  lemma {:induction false} PublishesExactly(es: seq<Event>, e: Event)
    requires Enabled(Run(Init(), es), e)
    ensures var s, t := Run(Init(), es), Run(Init(), es + [e]);
            t.log.published == s.log.published + Publishes(e, Data(e, Known(es), Reading(es)), s.q.manifests,
                                                           t.q.manifests, t.q.requests)
  {
    RunMeans(es);
    RunOneMore(es, e);
    StepPublishes(Run(Init(), es), e, Known(es), Reading(es));
  }

  // ---- What becomes of each request ----

  /** The requests decided when an event is handled with chain data: those that wait, a new one included. */
  ghost function AtHand(s: State, e: Event): seq<Request> {
    if e.Submit? then s.q.requests + [Request(s.log.received, e.manifest, false, 0, 0)] else s.q.requests
  }

  ghost function ProbesOf(e: Event): seq<Probe> {
    if e.ReadDone? || e.Submit? then e.probes else []
  }

  /** The first of a manifest's checks that fails, the version aside. */
  ghost function Flaw(m: Manifest, p: Probe): Option<Reason> {
    if p.endedDuring then Some(ContextEnded)
    else if !m.valid then Some(Invalid)
    else if !m.withinLimits then Some(OverLimits)
    else if m.version.None? then Some(NoVersion)
    else None
  }

  ghost function LateFlaw(p: Probe): Option<Reason> {
    if !p.fits then Some(WrongGroups) else if !p.hostsFree then Some(HostnameTaken) else None
  }

  ghost predicate Told(log: Log, n: nat, r: Request, a: Answer) {
    exists i | n <= i < |log.replies| :: log.replies[i] == Reply(r, a)
  }

  ghost predicate Dropped(log: Log, n: nat, r: Request) {
    exists i | n <= i < |log.dropped| :: log.dropped[i] == r
  }

  /** What becomes of a request at hand, from the state before the event to the one after it. */
  ghost predicate Decided(s: State, t: State, r: Request, p: Probe, leases: seq<Lease>) {
    var m, h, n, checked := r.manifest, t.c.expected.hash, |s.log.replies|, r.(checks := r.checks + 1);
    if p.endedBefore then Dropped(t.log, |s.log.dropped|, r)
    else if Flaw(m, p).Some? then Told(t.log, n, checked, Rejected(Flaw(m, p).value))
    else if m.version != Some(h) then
      if r.reread then Told(t.log, n, checked, VersionMismatch(t.c.applied, h))
      else
        var kept := checked.(reread := true, missedAt := s.c.started);
        if leases == [] && t.q.manifests != s.q.manifests then Told(t.log, n, kept, NoLease)
        else kept in t.q.requests
    else if LateFlaw(p).Some? then Told(t.log, n, checked, Rejected(LateFlaw(p).value))
    else if leases == [] then Told(t.log, n, checked, NoLease)
    else t.q.manifests != [] && Told(t.log, n, checked, Success(Latest(t.q), h, leases, |s.log.published|))
  }

  /** Where a pass puts a request. */
  ghost predicate Placed(b: Batch, r: Request, p: Probe, c: Chain) {
    var m, h, checked := r.manifest, c.expected.hash, Checked(r);
    if p.endedBefore then r in b.dropped
    else if Flaw(m, p).Some? then Reply(checked, Rejected(Flaw(m, p).value)) in b.replies
    else if m.version != Some(h) then
      if r.reread then Reply(checked, VersionMismatch(c.applied, h)) in b.replies
      else checked.(reread := true, missedAt := c.started) in b.reread
    else if LateFlaw(p).Some? then Reply(checked, Rejected(LateFlaw(p).value)) in b.replies
    else checked in b.accepted
  }

  lemma PlacePlaces(b: Batch, r: Request, p: Probe, c: Chain)
    ensures Placed(Place(b, r, p, c), r, p, c)
  {}

  lemma PlacedStays(b: Batch, r: Request, p: Probe, c: Chain, q: Request, o: Probe)
    requires Placed(b, r, p, c)
    ensures Placed(Place(b, q, o, c), r, p, c)
  {}

  lemma {:induction false} SortPlaces(rs: seq<Request>, probes: seq<Probe>, c: Chain, k: nat)
    requires k < |rs|
    ensures Placed(Sort(rs, probes, c), rs[k], ProbeAt(probes, k), c)
  {
    var front, n := rs[..|rs| - 1], |rs| - 1;
    var b := Sort(front, probes, c);
    if k == n {
      PlacePlaces(b, rs[n], ProbeAt(probes, n), c);
    } else {
      SortPlaces(front, probes, c, k);
      PlacedStays(b, rs[k], ProbeAt(probes, k), c, rs[n], ProbeAt(probes, n));
    }
  }

  lemma EmitTells(s: State, bus: seq<bool>)
    ensures var t := MaybeEmit(s, bus);
            && s.log.replies <= t.log.replies && t.log.dropped == s.log.dropped && t.c == s.c
            && t.q.manifests == s.q.manifests
  {}

  lemma ToldIn(log: Log, n: nat, some: seq<Reply>, r: Request, a: Answer)
    requires Reply(r, a) in some && n + |some| <= |log.replies| && log.replies[n..n + |some|] == some
    ensures Told(log, n, r, a)
  {
    var i :| 0 <= i < |some| && some[i] == Reply(r, a);
    assert log.replies[n..n + |some|][i] == log.replies[n + i];
  }

  lemma ToldLater(log: Log, n: nat, m: nat, r: Request, a: Answer)
    requires Told(log, m, r, a) && n <= m
    ensures Told(log, n, r, a)
  {}

  lemma EmitAnswers(s: State, bus: seq<bool>, r: Request)
    requires s.c.fetched && r in s.q.pending && s.q.manifests != []
    ensures var t := MaybeEmit(s, bus);
            Told(t.log, |s.log.replies|, r,
                 if s.c.leases == [] then NoLease
                 else Success(Latest(s.q), s.c.expected.hash, s.c.leases, |s.log.published|))
  {
    var a := if s.c.leases == [] then NoLease
             else Success(Latest(s.q), s.c.expected.hash, s.c.leases, |s.log.published|);
    var t := MaybeEmit(s, bus);
    var k :| 0 <= k < |s.q.pending| && s.q.pending[k] == r;
    assert AnswerAll(s.q.pending, a)[k] == Reply(r, a);
    assert t.log.replies[|s.log.replies| + k] == Reply(r, a);
  }

  lemma EmitKeeps(s: State, bus: seq<bool>, r: Request)
    requires s.c.fetched && r in s.q.requests && (s.q.pending != [] ==> s.q.manifests != [])
    ensures var t := MaybeEmit(s, bus);
            if s.c.leases == [] && s.q.pending != [] then Told(t.log, |s.log.replies|, r, NoLease)
            else r in t.q.requests
  {
    if s.c.leases == [] && s.q.pending != [] {
      var t := MaybeEmit(s, bus);
      var k :| 0 <= k < |s.q.requests| && s.q.requests[k] == r;
      assert AnswerAll(s.q.requests, NoLease)[k] == Reply(r, NoLease);
      assert t.log.replies[|s.log.replies| + |s.q.pending| + k] == Reply(r, NoLease);
    }
  }

  lemma {:induction false} ValidateTells(s: State, probes: seq<Probe>, r: Request, a: Answer)
    requires s.c.fetched && s.q.requests != [] && Reply(r, a) in Sort(s.q.requests, probes, s.c).replies
    ensures Told(Validate(s, probes).log, |s.log.replies|, r, a)
  {
    var b := Sort(s.q.requests, probes, s.c);
    ToldIn(Validate(s, probes).log, |s.log.replies|, b.replies, r, a);
  }

  lemma ToldStays(s: State, bus: seq<bool>, n: nat, r: Request, a: Answer)
    requires Told(s.log, n, r, a)
    ensures Told(MaybeEmit(s, bus).log, n, r, a)
  {
    EmitTells(s, bus);
    var i :| n <= i < |s.log.replies| && s.log.replies[i] == Reply(r, a);
    assert MaybeEmit(s, bus).log.replies[i] == Reply(r, a);
  }

  lemma {:induction false} ValidateDrops(s: State, probes: seq<Probe>, r: Request)
    requires s.c.fetched && s.q.requests != [] && r in Sort(s.q.requests, probes, s.c).dropped
    ensures Dropped(Validate(s, probes).log, |s.log.dropped|, r)
  {
    var b := Sort(s.q.requests, probes, s.c);
    var i :| 0 <= i < |b.dropped| && b.dropped[i] == r;
    assert Validate(s, probes).log.dropped[|s.log.dropped| + i] == r;
  }

  lemma {:induction false} ProcessDecides(s: State, probes: seq<Probe>, bus: seq<bool>, k: nat)
    requires s.c.fetched && s.q.pending == [] && k < |s.q.requests|
    ensures Decided(s, Process(s, probes, bus), s.q.requests[k], ProbeAt(probes, k), s.c.leases)
  {
    var r, p, b, u := s.q.requests[k], ProbeAt(probes, k), Sort(s.q.requests, probes, s.c), Validate(s, probes);
    var m, h, checked, n := r.manifest, s.c.expected.hash, Checked(r), |s.log.replies|;
    SortPlaces(s.q.requests, probes, s.c, k);
    EmitTells(u, bus);
    assert u.q.pending == b.accepted;
    if p.endedBefore {
      ValidateDrops(s, probes, r);
    } else if Flaw(m, p).Some? {
      ValidateTells(s, probes, checked, Rejected(Flaw(m, p).value));
      ToldStays(u, bus, n, checked, Rejected(Flaw(m, p).value));
    } else if m.version != Some(h) {
      if r.reread {
        ValidateTells(s, probes, checked, VersionMismatch(s.c.applied, h));
        ToldStays(u, bus, n, checked, VersionMismatch(s.c.applied, h));
      } else {
        var kept := checked.(reread := true, missedAt := s.c.started);
        EmitKeeps(u, bus, kept);
        if s.c.leases == [] && b.accepted != [] { ToldLater(MaybeEmit(u, bus).log, n, |u.log.replies|, kept, NoLease); }
      }
    } else if LateFlaw(p).Some? {
      ValidateTells(s, probes, checked, Rejected(LateFlaw(p).value));
      ToldStays(u, bus, n, checked, Rejected(LateFlaw(p).value));
    } else {
      EmitAnswers(u, bus, checked);
      var a := if s.c.leases == [] then NoLease else Success(Latest(u.q), h, s.c.leases, |s.log.published|);
      ToldLater(MaybeEmit(u, bus).log, n, |u.log.replies|, checked, a);
    }
  }

  lemma StepDecides(s: State, e: Event, known: Option<seq<Lease>>, reading: bool, k: nat)
    requires Head(s) && Means(s.c, known, reading) && Enabled(s, e)
    requires Data(e, known, reading).Some? && k < |AtHand(s, e)|
    ensures Decided(s, Step(s, e), AtHand(s, e)[k], ProbeAt(ProbesOf(e), k), Data(e, known, reading).value)
  {
    if e.Submit? {
      ProcessDecides(Receive(s, e.manifest), e.probes, e.bus, k);
    } else {
      ProcessDecides(s.(c := ApplyRead(s.c, e.version, e.leases)), e.probes, e.bus, k);
    }
  }

  /** In every run, handling a completed read, or a submission with data at hand, decides every request that waits, the
      new one included, by what the environment says of it: dropped if its context ended; refused for the first check
      that fails; kept for another read if its version does not match for the first time, and refused if not for the
      first time; otherwise told that it succeeded, or that there is no lease. */
  lemma {:induction false} EachDecided(es: seq<Event>, e: Event, k: nat)
    requires Enabled(Run(Init(), es), e) && Data(e, Known(es), Reading(es)).Some? && k < |AtHand(Run(Init(), es), e)|
    ensures var s, t := Run(Init(), es), Run(Init(), es + [e]);
            Decided(s, t, AtHand(s, e)[k], ProbeAt(ProbesOf(e), k), Data(e, Known(es), Reading(es)).value)
  {
    RunMeans(es);
    RunOneMore(es, e);
    StepDecides(Run(Init(), es), e, Known(es), Reading(es), k);
  }

  lemma StepAnswersAll(s: State, e: Event, known: Option<seq<Lease>>, reading: bool)
    requires Head(s) && Means(s.c, known, reading) && Enabled(s, e) && Data(e, known, reading).None?
    ensures var t := Step(s, e);
            if e.ReadFailed? || e.Stop? then
              && t.q.requests == []
              && t.log.replies == s.log.replies + AnswerAll(s.q.requests, if e.Stop? then NotRunning else FetchFailed)
            else t.q.requests == AtHand(s, e) && t.log.replies == s.log.replies
  {}

  /** And without chain data nobody is told anything and a submission waits, except that a failed read and the end of
      the loop tell everyone who waits. */
  lemma {:induction false} OthersAnswerAll(es: seq<Event>, e: Event)
    requires Enabled(Run(Init(), es), e) && Data(e, Known(es), Reading(es)).None?
    ensures var s, t := Run(Init(), es), Run(Init(), es + [e]);
            if e.ReadFailed? || e.Stop? then
              && t.q.requests == []
              && t.log.replies == s.log.replies + AnswerAll(s.q.requests, if e.Stop? then NotRunning else FetchFailed)
            else t.q.requests == AtHand(s, e) && t.log.replies == s.log.replies
  {
    RunMeans(es);
    RunOneMore(es, e);
    StepAnswersAll(Run(Init(), es), e, Known(es), Reading(es));
  }

  // ---- The manifest recorded ----

  /** The request passes every check. */
  ghost predicate Passes(r: Request, p: Probe, h: Hash) {
    !p.endedBefore && Flaw(r.manifest, p).None? && r.manifest.version == Some(h) && LateFlaw(p).None?
  }

  /** The manifest of the first request that passes, if one does. */
  ghost function FirstPassing(rs: seq<Request>, probes: seq<Probe>, h: Hash): seq<Manifest> {
    if rs == [] then []
    else
      var n := |rs| - 1;
      var before := FirstPassing(rs[..n], probes, h);
      if before != [] then before
      else if Passes(rs[n], ProbeAt(probes, n), h) then [rs[n].manifest]
      else []
  }

  lemma {:induction false} SortFinds(rs: seq<Request>, probes: seq<Probe>, c: Chain)
    ensures First(Sort(rs, probes, c).accepted) == FirstPassing(rs, probes, c.expected.hash)
  {
    if rs != [] { SortFinds(rs[..|rs| - 1], probes, c); }
  }

  lemma StepRecords(s: State, e: Event, known: Option<seq<Lease>>, reading: bool)
    requires Head(s) && Means(s.c, known, reading) && Enabled(s, e)
    ensures var t := Step(s, e);
            t.q.manifests == s.q.manifests +
            if Data(e, known, reading).Some? then FirstPassing(AtHand(s, e), ProbesOf(e), t.c.expected.hash) else []
  {
    if e.Submit? {
      ProcessRecords(Receive(s, e.manifest).(c := MaybeFetch(s.c, e.stale)), e.probes, e.bus);
    } else if e.ReadDone? {
      ProcessRecords(s.(c := ApplyRead(s.c, e.version, e.leases)), e.probes, e.bus);
    }
  }

  lemma {:induction false} ProcessRecords(s: State, probes: seq<Probe>, bus: seq<bool>)
    requires s.q.pending == []
    ensures var t := Process(s, probes, bus);
            && t.c.expected == s.c.expected
            && (s.c.fetched ==>
                  t.q.manifests == s.q.manifests + FirstPassing(s.q.requests, probes, s.c.expected.hash))
  {
    SortFinds(s.q.requests, probes, s.c);
    EmitTells(Validate(s, probes), bus);
  }

  /** In every run the manifest an event adds to those accepted, which is the one published from then on, is that of the
      first request at hand that passes every check. */
  lemma {:induction false} RecordsFirst(es: seq<Event>, e: Event)
    requires Enabled(Run(Init(), es), e)
    ensures var s, t := Run(Init(), es), Run(Init(), es + [e]);
            t.q.manifests == s.q.manifests +
            if Data(e, Known(es), Reading(es)).Some?
            then FirstPassing(AtHand(s, e), ProbesOf(e), t.c.expected.hash) else []
  {
    RunMeans(es);
    RunOneMore(es, e);
    StepRecords(Run(Init(), es), e, Known(es), Reading(es));
  }

  /** In every run the loop has ended exactly if it was stopped. */
  lemma {:induction false} EndedIff(es: seq<Event>)
    ensures Run(Init(), es).exited <==> Stop in es
  {
    if es != [] {
      var front, e := es[..|es| - 1], es[|es| - 1];
      EndedIff(front);
      if Enabled(Run(Init(), front), e) && !e.Stop? { StaysUp(Run(Init(), front), e); }
      assert es == front + [e];
    }
  }
}
