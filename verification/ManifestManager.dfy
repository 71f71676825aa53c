/** The manifest manager itself: its fields, its helpers with their loops, and one method per `select` case, each
    proved to take the step of `ManifestLoop`, from a state of some run to the next.  Answers sent and events published
    are recorded in `replies` and `published`; what the chain, the clock and the bus say comes in as arguments. */
module ManifestManager {
  import opened Market
  import opened ManifestLoop

  class Manager {
    var requests: seq<Request>
    var pendingRequests: seq<Request>
    var manifests: seq<Manifest>
    var expected: Version
    var fetched: bool
    var localLeases: seq<Lease>
    var runch: Option<nat>
    var exited: bool
    var received: nat
    var replies: seq<Reply>
    var published: seq<Publication>

    // How many reads were started and which was applied last: bookkeeping for the record of answers.
    var started: nat
    var applied: nat

    ghost var dropped: seq<Request>
    ghost var history: seq<Version>

    ghost function ChainView(): Chain
      reads this
    {
      Chain(expected, fetched, localLeases, runch, started, applied, history)
    }

    /** The loop's state, in the terms of the state machine. */
    ghost function View(): State
      reads this
    {
      State(Queues(requests, pendingRequests, manifests), ChainView(), Log(received, replies, dropped, published),
            exited)
    }

    /** Between two cases of the loop the fields are a state of some run. */
    ghost predicate Valid()
      reads this
    {
      Reachable(View())
    }

    /** What every state of the manager between two cases has in it: no accepted request waits to be answered, requests
        wait only for a read of the chain, and none waits once the loop ended. */
    lemma LeavesNoneStuck()
      requires Valid()
      ensures pendingRequests == [] && (requests != [] ==> runch.Some?) && (exited ==> requests == [])
    {
      var es: seq<Event> :| View() == Run(Init(), es);
      NoneStuck(es);
    }

    constructor ()
      ensures Valid() && View() == Init()
    {
      requests, pendingRequests, manifests := [], [], [];
      expected, fetched, localLeases, runch := Version([], 0), false, [], None;
      exited, received, replies, published, started, applied := false, 0, [], [], 0, 0;
      dropped, history := [], [];
      new;
      assert View() == Run(Init(), []);
    }

    method ClearFetched()
      modifies this`fetched, this`localLeases
      ensures ChainView() == Clear(old(ChainView()))
    {
      fetched := false;
      localLeases := [];
    }

    method FetchData()
      modifies this`fetched, this`localLeases, this`started, this`runch
      ensures ChainView() == StartRead(old(ChainView()))
    {
      ClearFetched();
      started := started + 1;
      runch := Some(started);
    }

    method MaybeFetchData(stale: bool)
      modifies this`fetched, this`localLeases, this`started, this`runch
      ensures ChainView() == MaybeFetch(old(ChainView()), stale)
    {
      if runch.Some? {
        return;
      }
      if !fetched || stale {
        FetchData();
      }
    }

    method MaybeRereadData()
      modifies this`fetched, this`localLeases, this`started, this`runch
      ensures View() == MaybeReread(old(View()))
    {
      if |requests| == 0 {
        return;
      }
      FetchData();
    }

    method ApplyFetchResult(v: Version, leases: seq<Lease>)
      requires runch.Some?
      modifies this`fetched, this`localLeases, this`applied, this`history, this`expected, this`runch
      ensures ChainView() == ApplyRead(old(ChainView()), v, leases)
    {
      applied := runch.value;
      runch := None;
      fetched := true;
      localLeases := leases;
      history := history + [v];
      if |v.hash| == 0 {
        return;
      }
      if v.height < expected.height {
        return;
      }
      expected := v;
    }

    /** Sends `response` to every request, those already accepted first. */
    method FillAllRequests(response: Answer)
      modifies this`requests, this`pendingRequests, this`replies
      ensures View() == FillAll(old(View()), response)
    {
      Answer(pendingRequests, response);
      pendingRequests := [];
      Answer(requests, response);
      requests := [];
    }

    method Answer(rs: seq<Request>, response: Answer)
      modifies this`replies
      ensures replies == old(replies) + AnswerAll(rs, response)
    {
      var i := 0;
      while i < |rs|
        invariant 0 <= i <= |rs|
        invariant replies == old(replies) + AnswerAll(rs[..i], response)
      {
        replies := replies + [Reply(rs[i], response)];
        i := i + 1;
        assert AnswerAll(rs[..i], response) == AnswerAll(rs[..i - 1], response) + [Reply(rs[i - 1], response)];
      }
      assert rs[..i] == rs;
    }

    /** Hands a manifest to the bus for every lease; what the bus refuses is only recorded. */
    method PublishLatest(m: Manifest, bus: seq<bool>)
      modifies this`published
      ensures published == old(published) + PublishAll(localLeases, m, bus)
    {
      var i := 0;
      while i < |localLeases|
        invariant 0 <= i <= |localLeases|
        invariant published == old(published) + PublishAll(localLeases[..i], m, bus)
      {
        published := published + [Publication(localLeases[i], m, BusTakes(bus, i))];
        i := i + 1;
        assert PublishAll(localLeases[..i], m, bus)
            == PublishAll(localLeases[..i - 1], m, bus) + [Publication(localLeases[i - 1], m, BusTakes(bus, i - 1))];
      }
      assert localLeases[..i] == localLeases;
    }

    method EmitReceivedEvents(bus: seq<bool>)
      modifies this`requests, this`pendingRequests, this`replies, this`published
      ensures View() == Emit(old(View()), bus)
    {
      if !fetched || |manifests| == 0 {
        return;
      }
      if |localLeases| == 0 {
        FillAllRequests(NoLease);
        return;
      }
      var latest := manifests[|manifests| - 1];
      var at := |published|;
      PublishLatest(latest, bus);
      Answer(pendingRequests, Success(latest, expected.hash, localLeases, at));
      pendingRequests := [];
    }

    method MaybeEmitReceivedEvents(bus: seq<bool>)
      modifies this`requests, this`pendingRequests, this`replies, this`published
      ensures View() == MaybeEmit(old(View()), bus)
    {
      if |requests| > 0 && |pendingRequests| == 0 {
        return;
      }
      EmitReceivedEvents(bus);
    }

    /** One request's validation, given what the environment says.  It is accepted exactly if every check passes, and
        put down as a mismatch, which a chain read may still mend, exactly if its version is the first to fail. */
    method ValidateRequest(m: Manifest, p: Probe) returns (verdict: Verdict)
      ensures verdict.Accepted? <==> WellFormed(m, p) && m.version == Some(expected.hash) && p.fits && p.hostsFree
      ensures verdict.Mismatch? <==> WellFormed(m, p) && m.version != Some(expected.hash)
      ensures verdict == Judge(m, p, expected.hash)
    {
      if p.endedDuring { return Refused(ContextEnded); }
      if !m.valid { return Refused(Invalid); }
      if !m.withinLimits { return Refused(OverLimits); }
      if m.version.None? { return Refused(NoVersion); }
      if m.version.value != expected.hash { return Mismatch; }
      if !p.fits { return Refused(WrongGroups); }
      if !p.hostsFree { return Refused(HostnameTaken); }
      return Accepted;
    }

    /** The pass over the requests: those to keep for another read and the manifests found, in order; the others are
        moved to `pendingRequests`, answered or dropped. */
    method SortRequests(probes: seq<Probe>) returns (reread: seq<Request>, found: seq<Manifest>)
      modifies this`pendingRequests, this`replies, this`dropped
      ensures var b := Sort(requests, probes, ChainView());
              && reread == b.reread && found == Found(b.accepted)
              && pendingRequests == old(pendingRequests) + b.accepted
              && replies == old(replies) + b.replies && dropped == old(dropped) + b.dropped
    {
      reread, found := [], [];
      ghost var b := Batch([], [], [], []);
      var i := 0;
      while i < |requests|
        invariant 0 <= i <= |requests|
        invariant b == Sort(requests[..i], probes, ChainView())
        invariant reread == b.reread && found == Found(b.accepted)
        invariant pendingRequests == old(pendingRequests) + b.accepted
        invariant replies == old(replies) + b.replies && dropped == old(dropped) + b.dropped
      {
        var req := requests[i];
        var p := ProbeAt(probes, i);
        b := Place(b, req, p, ChainView());
        assert requests[..i + 1][..i] == requests[..i];
        i := i + 1;
        if p.endedBefore {
          dropped := dropped + [req];
          continue;
        }
        var verdict := ValidateRequest(req.manifest, p);
        req := Checked(req);
        if verdict.Mismatch? && !req.reread {
          req := req.(reread := true, missedAt := started);
          reread := reread + [req];
          continue;
        }
        if !verdict.Accepted? {
          replies := replies + [Reply(req, RefusalOf(verdict))];
          continue;
        }
        found := found + [req.manifest];
        pendingRequests := pendingRequests + [req];
      }
      assert requests[..i] == requests;
    }

    method ValidateRequests(probes: seq<Probe>)
      modifies this`requests, this`pendingRequests, this`manifests, this`replies, this`dropped
      ensures View() == Validate(old(View()), probes)
    {
      if !fetched || |requests| == 0 {
        return;
      }
      ghost var b := Sort(requests, probes, ChainView());
      var reread, found := SortRequests(probes);
      requests := reread;
      if |found| > 0 {
        manifests := manifests + [found[0]];
      }
      assert manifests == old(manifests) + First(b.accepted);
    }

    function Found(rs: seq<Request>): seq<Manifest> {
      seq(|rs|, i requires 0 <= i < |rs| => rs[i].manifest)
    }

    function RefusalOf(v: Verdict): Answer
      requires !v.Accepted?
      reads this
    {
      if v.Mismatch? then VersionMismatch(applied, expected.hash) else Rejected(v.reason)
    }

    /** What is checked before the version: the context, the contents, the limits, and that there is a version. */
    predicate WellFormed(m: Manifest, p: Probe) {
      !p.endedDuring && m.valid && m.withinLimits && m.version.Some?
    }

    // ---- The cases of the loop ----

    method OnLease(stale: bool)
      requires Valid() && !exited
      modifies this
      ensures Valid() && View() == Step(old(View()), LeaseWon(stale))
    {
      ReachableStep(View(), LeaseWon(stale));
      ClearFetched();
      MaybeFetchData(stale);
    }

    method OnRemoveLease()
      requires Valid() && !exited
      modifies this
      ensures Valid() && View() == Step(old(View()), LeaseRemoved)
    {
      ReachableStep(View(), LeaseRemoved);
      ClearFetched();
    }

    method Enqueue(m: Manifest)
      modifies this`requests, this`received
      ensures View() == Receive(old(View()), m)
    {
      requests := requests + [Request(received, m, false, 0, 0)];
      received := received + 1;
    }

    method OnManifest(m: Manifest, stale: bool, probes: seq<Probe>, bus: seq<bool>)
      requires Valid() && !exited
      modifies this
      ensures Valid() && View() == Step(old(View()), Submit(m, stale, probes, bus))
    {
      ReachableStep(View(), Submit(m, stale, probes, bus));
      Enqueue(m);
      MaybeFetchData(stale);
      if runch.None? {
        ProcessRequests(probes, bus);
      }
    }

    method ProcessRequests(probes: seq<Probe>, bus: seq<bool>)
      modifies this
      ensures View() == Process(old(View()), probes, bus)
    {
      ValidateRequests(probes);
      MaybeEmitReceivedEvents(bus);
      MaybeRereadData();
    }

    /** An update event carries a version, which the loop ignores but for dropping the cached read. */
    method OnUpdate()
      requires Valid() && !exited
      modifies this
      ensures Valid() && View() == Step(old(View()), VersionUpdate)
    {
      ReachableStep(View(), VersionUpdate);
      ClearFetched();
    }

    method OnFetchError()
      requires Valid() && !exited && runch.Some?
      modifies this
      ensures Valid() && View() == Step(old(View()), ReadFailed)
    {
      ReachableStep(View(), ReadFailed);
      runch := None;
      FillAllRequests(FetchFailed);
    }

    method OnFetchResult(v: Version, leases: seq<Lease>, probes: seq<Probe>, bus: seq<bool>)
      requires Valid() && !exited && runch.Some?
      modifies this
      ensures Valid() && View() == Step(old(View()), ReadDone(v, leases, probes, bus))
    {
      ReachableStep(View(), ReadDone(v, leases, probes, bus));
      ApplyFetchResult(v, leases);
      ProcessRequests(probes, bus);
    }

    /** A shutdown request, or the linger timer. */
    method OnStopped()
      requires Valid() && !exited
      modifies this
      ensures Valid() && View() == Step(old(View()), Stop)
    {
      ReachableStep(View(), Stop);
      exited := true;
      FillAllRequests(NotRunning);
    }
  }
}
