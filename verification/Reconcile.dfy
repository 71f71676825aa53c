/** Start-up reconciliation: one pass matches the provider's leases in the cluster against the chain and tears down
    those the chain reports closed.  What the chain, the cluster and the bus answer comes in as arguments; what the pass
    does to them is the list of actions it returns. */
module Reconcile {
  import opened Market

  datatype LeaseState = Active | Reclaiming | InsufficientFunds | Closed | OtherState

  /** The answer to one query of a lease: unknown, an error, or a lease, which may be another one. */
  datatype Lookup = NotFound | LookupFailed | Found(id: LeaseID, state: LeaseState, reason: ClosedReason)

  /** One page of the active leases, or an error. */
  datatype Response = ReadFailed | Page(leases: seq<LeaseID>, next: string)

  /** Whether each step of one lease's teardown succeeds. */
  datatype Luck = Luck(publish: bool, purgeHostnames: bool, purgeIPs: bool, release: bool, teardown: bool)

  datatype Action =
    | PublishClosed(lid: LeaseID, reason: ClosedReason)
    | PurgeHostnames(lid: LeaseID)
    | PurgeIPs(lid: LeaseID)
    | ReleaseHostnames(lid: LeaseID)
    | Teardown(lid: LeaseID)

  // ---- Active leases ----

  datatype ActiveResult = Read(active: set<LeaseID>) | Failed | Stalled | Unfinished

  function LeasesOf(pages: seq<Response>): set<LeaseID> {
    if pages == [] then {} else LeasesOf(pages[..|pages| - 1]) + LeasesIn(pages[|pages| - 1])
  }

  function LeasesIn(page: Response): set<LeaseID> {
    if page.Page? then set l | l in page.leases else {}
  }

  /** The leases of some pages are those one of the pages lists. */
  lemma {:induction false} LeasesOfIs(pages: seq<Response>, l: LeaseID)
    ensures l in LeasesOf(pages) <==> exists i | 0 <= i < |pages| :: pages[i].Page? && l in pages[i].leases
  {
    if pages != [] {
      var n := |pages| - 1;
      LeasesOfIs(pages[..n], l);
      if exists i | 0 <= i < |pages| :: pages[i].Page? && l in pages[i].leases {
        var i :| 0 <= i < |pages| && pages[i].Page? && l in pages[i].leases;
        assert i < n ==> pages[..n][i] == pages[i];
      }
      if exists i | 0 <= i < n :: pages[..n][i].Page? && l in pages[..n][i].leases {
        var i :| 0 <= i < n && pages[..n][i].Page? && l in pages[..n][i].leases;
        assert pages[i] == pages[..n][i];
      }
    }
  }

  /** The first `n` pages are all there are: each names a next key, other than the one it was asked with, but the last
      of them. */
  ghost predicate Complete(pages: seq<Response>, n: nat) {
    0 < n <= |pages| && Continues(pages, n - 1) && pages[n - 1].Page? && pages[n - 1].next == ""
  }

  ghost predicate Continues(pages: seq<Response>, n: nat)
    requires n <= |pages|
  {
    forall k | 0 <= k < n :: pages[k].Page? && pages[k].next != "" && pages[k].next != KeyAt(pages, k)
  }

  /** The key page `k` is asked with. */
  function KeyAt(pages: seq<Response>, k: nat): string
    requires k <= |pages|
  {
    if k > 0 && pages[k - 1].Page? then pages[k - 1].next else ""
  }

  /** What reading on from page `i` comes to. */
  function ReadFrom(pages: seq<Response>, i: nat): ActiveResult
    requires i <= |pages|
    decreases |pages| - i
  {
    if i == |pages| then Unfinished
    else if pages[i].ReadFailed? then Failed
    else if pages[i].next == "" then Read(LeasesOf(pages[..i + 1]))
    else if pages[i].next == KeyAt(pages, i) then Stalled
    else ReadFrom(pages, i + 1)
  }

  /** Follows the next keys to the end; the pages are given in the order they are read, and a list of them that ends
      early stands for a pass out of time. */
  method ActiveLeases(pages: seq<Response>) returns (r: ActiveResult)
    ensures r == ReadFrom(pages, 0)
  {
    var active: set<LeaseID> := {};
    var key := "";
    var i := 0;
    while i < |pages|
      invariant 0 <= i <= |pages|
      invariant ReadFrom(pages, 0) == ReadFrom(pages, i)
      invariant key == KeyAt(pages, i)
      invariant active == LeasesOf(pages[..i])
    {
      if pages[i].ReadFailed? {
        return Failed;
      }
      active := active + set l | l in pages[i].leases;
      assert pages[..i + 1][..i] == pages[..i];
      var next := pages[i].next;
      if |next| == 0 {
        return Read(active);
      }
      if next == key {
        return Stalled;
      }
      key := next;
      i := i + 1;
    }
    return Unfinished;
  }

  lemma {:induction false} ReadReaches(pages: seq<Response>, i: nat, n: nat)
    requires i < n && Complete(pages, n)
    ensures ReadFrom(pages, i) == Read(LeasesOf(pages[..n]))
    decreases n - i
  {
    if i < n - 1 {
      ReadReaches(pages, i + 1, n);
    }
  }

  lemma {:induction false} ReadStops(pages: seq<Response>, i: nat)
    requires i <= |pages| && Continues(pages, i) && ReadFrom(pages, i).Read?
    ensures exists n: nat :: Complete(pages, n)
    decreases |pages| - i
  {
    if pages[i].next == "" {
      assert Complete(pages, i + 1);
    } else {
      ReadStops(pages, i + 1);
    }
  }

  /** The active leases are read exactly when the pages come to an end, and are then those the pages list. */
  lemma {:induction false} ActiveExactly(pages: seq<Response>, n: nat)
    ensures ReadFrom(pages, 0).Read? <==> exists m: nat :: Complete(pages, m)
    ensures Complete(pages, n) ==> ReadFrom(pages, 0) == Read(LeasesOf(pages[..n]))
  {
    if ReadFrom(pages, 0).Read? {
      ReadStops(pages, 0);
    }
    if m: nat :| Complete(pages, m) {
      ReadReaches(pages, 0, m);
    }
    if Complete(pages, n) {
      ReadReaches(pages, 0, n);
    }
  }

  // ---- Counting the leases of a group ----

  ghost function InGroup(active: set<LeaseID>, g: GroupID): set<LeaseID> {
    set l | l in active && l.Group() == g
  }

  function OwnInGroup(own: seq<LeaseID>, active: set<LeaseID>, g: GroupID): nat {
    if own == [] then 0
    else
      var l := own[|own| - 1];
      OwnInGroup(own[..|own| - 1], active, g) + if l !in active && l.Group() == g then 1 else 0
  }

  /** The leases of a group that are active on chain, and those in the cluster that are not. */
  ghost function GroupLeases(own: seq<LeaseID>, active: set<LeaseID>, g: GroupID): nat {
    |InGroup(active, g)| + OwnInGroup(own, active, g)
  }

  function Get(m: map<GroupID, nat>, g: GroupID): nat {
    if g in m then m[g] else 0
  }

  method CountGroups(own: seq<LeaseID>, active: set<LeaseID>) returns (counts: map<GroupID, nat>)
    ensures forall g: GroupID :: Get(counts, g) == GroupLeases(own, active, g)
  {
    counts := map[];
    var rest := active;
    while rest != {}
      invariant rest <= active
      invariant forall g: GroupID :: Get(counts, g) == |InGroup(active - rest, g)|
    {
      var l :| l in rest;
      ghost var done := active - rest;
      rest := rest - {l};
      assert active - rest == done + {l};
      GroupGrows(done, l);
      counts := counts[l.Group() := Get(counts, l.Group()) + 1];
    }
    assert active - rest == active;
    var i := 0;
    while i < |own|
      invariant 0 <= i <= |own|
      invariant forall g: GroupID :: Get(counts, g) == GroupLeases(own[..i], active, g)
    {
      OneMoreOwn(own, active, i);
      ghost var was := counts;
      if own[i] !in active {
        counts := counts[own[i].Group() := Get(counts, own[i].Group()) + 1];
      }
      i := i + 1;
      forall g: GroupID ensures Get(counts, g) == GroupLeases(own[..i], active, g) {
        assert Get(was, g) == GroupLeases(own[..i - 1], active, g);
      }
    }
    assert own[..i] == own;
  }

  lemma {:induction false} OneMoreOwn(own: seq<LeaseID>, active: set<LeaseID>, i: nat)
    requires i < |own|
    ensures forall g: GroupID :: OwnInGroup(own[..i + 1], active, g)
                              == OwnInGroup(own[..i], active, g)
                                 + if own[i] !in active && own[i].Group() == g then 1 else 0
  {
    assert own[..i + 1][..i] == own[..i];
  }

  lemma GroupGrows(done: set<LeaseID>, l: LeaseID)
    requires l !in done
    ensures forall g: GroupID :: |InGroup(done + {l}, g)| == |InGroup(done, g)| + if l.Group() == g then 1 else 0
  {
    forall g: GroupID ensures |InGroup(done + {l}, g)| == |InGroup(done, g)| + if l.Group() == g then 1 else 0 {
      assert InGroup(done + {l}, g) == if l.Group() == g then InGroup(done, g) + {l} else InGroup(done, g);
    }
  }

  lemma {:induction false} OwnCounted(own: seq<LeaseID>, active: set<LeaseID>, g: GroupID, i: nat)
    requires i < |own| && own[i] !in active && own[i].Group() == g
    ensures OwnInGroup(own, active, g) >= 1
  {
    if i < |own| - 1 {
      OwnCounted(own[..|own| - 1], active, g, i);
    }
  }

  lemma {:induction false} OwnCountedTwice(own: seq<LeaseID>, active: set<LeaseID>, g: GroupID, i: nat, j: nat)
    requires i < j < |own| && own[i] !in active && own[i].Group() == g && own[j] !in active && own[j].Group() == g
    ensures OwnInGroup(own, active, g) >= 2
  {
    if j < |own| - 1 {
      OwnCountedTwice(own[..|own| - 1], active, g, i, j);
    } else {
      OwnCounted(own[..j], active, g, i);
    }
  }

  /** A lease in the cluster that is not active is counted once exactly when it stands there once and shares its group
      with no other lease, in the cluster or active on chain. */
  lemma LastOfGroup(own: seq<LeaseID>, active: set<LeaseID>, i: nat)
    requires i < |own| && own[i] !in active
    ensures GroupLeases(own, active, own[i].Group()) == 1 <==>
            && (forall j | 0 <= j < |own| && j != i :: own[j] in active || own[j].Group() != own[i].Group())
            && (forall l | l in active :: l.Group() != own[i].Group())
  {
    var g := own[i].Group();
    OwnCounted(own, active, g, i);
    if (forall j | 0 <= j < |own| && j != i :: own[j] in active || own[j].Group() != g) {
      CountedOnce(own, active, g, i);
    } else {
      var j :| 0 <= j < |own| && j != i && own[j] !in active && own[j].Group() == g;
      if i < j { OwnCountedTwice(own, active, g, i, j); } else { OwnCountedTwice(own, active, g, j, i); }
    }
    if l :| l in active && l.Group() == g {
      assert l in InGroup(active, g);
    } else {
      assert InGroup(active, g) == {};
    }
  }

  lemma {:induction false} CountedOnce(own: seq<LeaseID>, active: set<LeaseID>, g: GroupID, i: nat)
    requires i < |own| && own[i] !in active && own[i].Group() == g
    requires forall j | 0 <= j < |own| && j != i :: own[j] in active || own[j].Group() != g
    ensures OwnInGroup(own, active, g) == 1
  {
    var n := |own| - 1;
    if i < n {
      CountedOnce(own[..n], active, g, i);
    } else {
      NoneCounted(own[..n], active, g);
    }
  }

  lemma {:induction false} NoneCounted(own: seq<LeaseID>, active: set<LeaseID>, g: GroupID)
    requires forall j | 0 <= j < |own| :: own[j] in active || own[j].Group() != g
    ensures OwnInGroup(own, active, g) == 0
  {
    if own != [] {
      NoneCounted(own[..|own| - 1], active, g);
    }
  }

  // ---- One lease ----

  datatype Closure = IsClosed(reason: ClosedReason) | NotClosed | Unconfirmed

  /** What a lookup says of the lease asked for. */
  function ClosureOf(lid: LeaseID, r: Lookup): Closure {
    match r
    case NotFound => NotClosed
    case LookupFailed => Unconfirmed
    case Found(id, state, reason) =>
      if id != lid then Unconfirmed
      else if state.Closed? || state.InsufficientFunds? then IsClosed(reason)
      else NotClosed
  }

  /** The chain, asked about the lease, answered with that very lease, closed or out of funds. */
  predicate ReportsClosed(r: Lookup, lid: LeaseID) {
    r.Found? && r.id == lid && (r.state.Closed? || r.state.InsufficientFunds?)
  }

  /** Or it did not answer, or with another lease. */
  predicate NoAnswer(r: Lookup, lid: LeaseID) {
    r.LookupFailed? || (r.Found? && r.id != lid)
  }

  lemma ClosureIs(lid: LeaseID, r: Lookup)
    ensures ClosureOf(lid, r).IsClosed? <==> ReportsClosed(r, lid)
    ensures ReportsClosed(r, lid) ==> ClosureOf(lid, r) == IsClosed(r.reason)
    ensures ClosureOf(lid, r).Unconfirmed? <==> NoAnswer(r, lid)
  {}

  /** What is done about one lease, and whether a step of it failed. */
  datatype Outcome = Outcome(actions: seq<Action>, failed: bool)

  function Remove(lid: LeaseID, last: bool, luck: Luck): Outcome {
    var purge := [PurgeHostnames(lid), PurgeIPs(lid)];
    if !luck.purgeHostnames || !luck.purgeIPs then Outcome(purge, true)
    else
      Outcome(purge + (if last then [ReleaseHostnames(lid)] else []) + [Teardown(lid)],
              (last && !luck.release) || !luck.teardown)
  }

  /** Every step of a removal succeeds. */
  predicate Removed(last: bool, luck: Luck) {
    luck.purgeHostnames && luck.purgeIPs && (last ==> luck.release) && luck.teardown
  }

  function Handle(lid: LeaseID, isActive: bool, isManaged: bool, last: bool, r: Lookup, luck: Luck): Outcome {
    if isActive then Outcome([], false)
    else match ClosureOf(lid, r)
      case Unconfirmed => Outcome([], true)
      case NotClosed => Outcome([], false)
      case IsClosed(reason) =>
        if isManaged then Outcome([PublishClosed(lid, reason)], !luck.publish) else Remove(lid, last, luck)
  }

  /** What a pass works on: the provider's leases in the cluster, those active on chain, those with a manager, and the
      environment's answers for each of the first. */
  datatype Input = Input(
    own: seq<LeaseID>,
    active: set<LeaseID>,
    managed: set<LeaseID>,
    lookups: seq<Lookup>,
    lucks: seq<Luck>)

  ghost predicate WellFormed(x: Input) {
    |x.lookups| == |x.own| && |x.lucks| == |x.own|
  }

  ghost function HandleAt(x: Input, i: nat): Outcome
    requires WellFormed(x) && i < |x.own|
  {
    var lid := x.own[i];
    var last := GroupLeases(x.own, x.active, lid.Group()) == 1;
    Handle(lid, lid in x.active, lid in x.managed, last, x.lookups[i], x.lucks[i])
  }

  ghost function HandleAll(x: Input, n: nat): Outcome
    requires WellFormed(x) && n <= |x.own|
  {
    if n == 0 then Outcome([], false)
    else
      var before, one := HandleAll(x, n - 1), HandleAt(x, n - 1);
      Outcome(before.actions + one.actions, before.failed || one.failed)
  }

  // ---- The pass ----

  /** Removes what one lease holds.  It fails exactly if a step of the removal does; the namespace is torn down exactly
      if both purges succeeded, so that until then the next pass finds the lease again, and hostnames are released if
      moreover the lease is the last of its group. */
  method RemoveUnmanagedLease(lid: LeaseID, lastOfGroup: bool, luck: Luck) returns (actions: seq<Action>, failed: bool)
    ensures failed <==> !Removed(lastOfGroup, luck)
    ensures Teardown(lid) in actions <==> luck.purgeHostnames && luck.purgeIPs
    ensures ReleaseHostnames(lid) in actions <==> Teardown(lid) in actions && lastOfGroup
    ensures Outcome(actions, failed) == Remove(lid, lastOfGroup, luck)
  {
    actions := [PurgeHostnames(lid), PurgeIPs(lid)];
    if !luck.purgeHostnames || !luck.purgeIPs {
      return actions, true;
    }
    failed := false;
    if lastOfGroup {
      actions := actions + [ReleaseHostnames(lid)];
      failed := !luck.release;
    }
    actions := actions + [Teardown(lid)];
    failed := failed || !luck.teardown;
  }

  method OwnLeases(lids: seq<LeaseID>, owner: string) returns (own: seq<LeaseID>)
    ensures own == Own(lids, owner)
  {
    own := [];
    var i := 0;
    while i < |lids|
      invariant 0 <= i <= |lids|
      invariant own == Own(lids[..i], owner)
    {
      assert lids[..i + 1][..i] == lids[..i];
      if lids[i].provider == owner {
        own := own + [lids[i]];
      }
      i := i + 1;
    }
    assert lids[..i] == lids;
  }

  function Own(lids: seq<LeaseID>, owner: string): seq<LeaseID> {
    if lids == [] then []
    else Own(lids[..|lids| - 1], owner) + if lids[|lids| - 1].provider == owner then [lids[|lids| - 1]] else []
  }

  lemma {:induction false} OwnAreOwn(lids: seq<LeaseID>, owner: string, l: LeaseID)
    ensures l in Own(lids, owner) <==> l in lids && l.provider == owner
  {
    if lids != [] {
      OwnAreOwn(lids[..|lids| - 1], owner, l);
      assert lids == lids[..|lids| - 1] + [lids[|lids| - 1]];
    }
  }

  /** The loop over the provider's leases. */
  method TearDownClosed(x: Input) returns (actions: seq<Action>, failed: bool)
    requires WellFormed(x)
    ensures Outcome(actions, failed) == HandleAll(x, |x.own|)
  {
    var counts := CountGroups(x.own, x.active);
    actions, failed := [], false;
    var i := 0;
    while i < |x.own|
      invariant 0 <= i <= |x.own|
      invariant Outcome(actions, failed) == HandleAll(x, i)
    {
      var lid := x.own[i];
      i := i + 1;
      if lid in x.active {
        continue;
      }
      var closed := ClosureOf(lid, x.lookups[i - 1]);
      if closed.Unconfirmed? {
        failed := true;
        continue;
      }
      if closed.NotClosed? {
        continue;
      }
      if lid in x.managed {
        actions := actions + [PublishClosed(lid, closed.reason)];
        failed := failed || !x.lucks[i - 1].publish;
        continue;
      }
      var more, bad := RemoveUnmanagedLease(lid, Get(counts, lid.Group()) == 1, x.lucks[i - 1]);
      actions := actions + more;
      failed := failed || bad;
    }
  }

  /** A whole pass.  `lids` is absent if the cluster cannot be read; `lookups` and `lucks` answer for the provider's own
      leases in order. */
  method ReconcileOnce(lids: Option<seq<LeaseID>>, owner: string, pages: seq<Response>, managed: set<LeaseID>,
                       lookups: seq<Lookup>, lucks: seq<Luck>)
    returns (actions: seq<Action>, failed: bool)
    requires lids.Some? ==> |lookups| == |lucks| == |Own(lids.value, owner)|
    ensures Outcome(actions, failed) == Pass(lids, owner, pages, managed, lookups, lucks)
  {
    if lids.None? {
      return [], true;
    }
    var own := OwnLeases(lids.value, owner);
    if |own| == 0 {
      return [], false;
    }
    var read := ActiveLeases(pages);
    if !read.Read? {
      return [], true;
    }
    actions, failed := TearDownClosed(Input(own, read.active, managed, lookups, lucks));
  }

  ghost function Pass(lids: Option<seq<LeaseID>>, owner: string, pages: seq<Response>, managed: set<LeaseID>,
                      lookups: seq<Lookup>, lucks: seq<Luck>): Outcome
    requires lids.Some? ==> |lookups| == |lucks| == |Own(lids.value, owner)|
  {
    if lids.None? then Outcome([], true)
    else
      var own := Own(lids.value, owner);
      if own == [] then Outcome([], false)
      else if !ReadFrom(pages, 0).Read? then Outcome([], true)
      else HandleAll(Input(own, ReadFrom(pages, 0).active, managed, lookups, lucks), |own|)
  }

  // ---- What a pass does ----

  lemma {:induction false} ActionOf(x: Input, n: nat, a: Action) returns (i: nat)
    requires WellFormed(x) && n <= |x.own| && a in HandleAll(x, n).actions
    ensures i < n && a in HandleAt(x, i).actions
  {
    i := n - 1;
    if a !in HandleAt(x, i).actions {
      i := ActionOf(x, n - 1, a);
    }
  }

  lemma {:induction false} ActionsStay(x: Input, i: nat, n: nat)
    requires WellFormed(x) && i < n <= |x.own|
    ensures forall a | a in HandleAt(x, i).actions :: a in HandleAll(x, n).actions
    ensures HandleAt(x, i).failed ==> HandleAll(x, n).failed
  {
    if i < n - 1 {
      ActionsStay(x, i, n - 1);
    }
  }

  /** A pass touches only leases the provider has in the cluster that are not active and that the chain, asked about
      that very lease, reports closed. */
  lemma {:induction false} OnlyClosedTornDown(x: Input, a: Action)
    requires WellFormed(x) && a in HandleAll(x, |x.own|).actions
    ensures exists i | 0 <= i < |x.own| ::
              x.own[i] == a.lid && a.lid !in x.active && ReportsClosed(x.lookups[i], a.lid)
  {
    var i := ActionOf(x, |x.own|, a);
    assert x.own[i] == a.lid;
    ClosureIs(a.lid, x.lookups[i]);
  }

  /** A pass releases the hostnames of a lease only if no other lease of the provider, in the cluster or active on
      chain, shares its group. */
  lemma {:induction false} ReleaseOnlyLastOfGroup(x: Input, lid: LeaseID, other: LeaseID)
    requires WellFormed(x) && ReleaseHostnames(lid) in HandleAll(x, |x.own|).actions
    requires other != lid && (other in x.own || other in x.active)
    ensures other.Group() != lid.Group()
  {
    var i := ActionOf(x, |x.own|, ReleaseHostnames(lid));
    LastOfGroup(x.own, x.active, i);
  }

  /** What is done about a lease reported closed: its closure is published and the bus took it, or it was removed, every
      step of it, with its hostname reservations if it was the last of its group. */
  ghost predicate Done(x: Input, actions: seq<Action>, i: nat)
    requires WellFormed(x) && i < |x.own|
  {
    var lid, last := x.own[i], GroupLeases(x.own, x.active, x.own[i].Group()) == 1;
    if lid in x.managed then
      x.lookups[i].Found? && PublishClosed(lid, x.lookups[i].reason) in actions && x.lucks[i].publish
    else
      && PurgeHostnames(lid) in actions && PurgeIPs(lid) in actions && Teardown(lid) in actions
      && (last ==> ReleaseHostnames(lid) in actions)
      && Removed(last, x.lucks[i])
  }

  /** A lease that could not be confirmed, or is reported closed and could not be published or removed. */
  ghost predicate Trouble(x: Input, i: nat)
    requires WellFormed(x) && i < |x.own|
  {
    var lid, last := x.own[i], GroupLeases(x.own, x.active, x.own[i].Group()) == 1;
    && lid !in x.active
    && (|| NoAnswer(x.lookups[i], lid)
        || (&& ReportsClosed(x.lookups[i], lid)
            && if lid in x.managed then !x.lucks[i].publish else !Removed(last, x.lucks[i])))
  }

  lemma {:induction false} FailsExactly(x: Input, n: nat)
    requires WellFormed(x) && n <= |x.own|
    ensures HandleAll(x, n).failed <==> exists i | 0 <= i < n :: Trouble(x, i)
  {
    if n > 0 {
      FailsExactly(x, n - 1);
      ClosureIs(x.own[n - 1], x.lookups[n - 1]);
      assert HandleAt(x, n - 1).failed <==> Trouble(x, n - 1);
    }
  }

  /** A pass without an error has done everything about every lease its lookup reported closed. */
  lemma {:induction false} NoErrorMeansDone(x: Input, i: nat)
    requires WellFormed(x) && i < |x.own| && !HandleAll(x, |x.own|).failed
    requires x.own[i] !in x.active && ReportsClosed(x.lookups[i], x.own[i])
    ensures Done(x, HandleAll(x, |x.own|).actions, i)
  {
    ActionsStay(x, i, |x.own|);
    ClosureIs(x.own[i], x.lookups[i]);
    var lid, one := x.own[i], HandleAt(x, i).actions;
    if lid in x.managed {
      assert PublishClosed(lid, x.lookups[i].reason) in one;
    } else {
      assert one[0] == PurgeHostnames(lid) && one[1] == PurgeIPs(lid) && one[|one| - 1] == Teardown(lid);
      assert GroupLeases(x.own, x.active, lid.Group()) == 1 ==> one[2] == ReleaseHostnames(lid);
    }
  }

  /** Nor was any lease left unconfirmed: every one not active was reported closed, open, or unknown. */
  lemma {:induction false} NoErrorMeansConfirmed(x: Input, i: nat)
    requires WellFormed(x) && i < |x.own| && !HandleAll(x, |x.own|).failed && x.own[i] !in x.active
    ensures !NoAnswer(x.lookups[i], x.own[i])
  {
    ActionsStay(x, i, |x.own|);
    ClosureIs(x.own[i], x.lookups[i]);
  }

  /** Where in a pass something is done about a lease's namespace, its declared hostnames and IPs were purged before,
      and successfully: a pass cut short anywhere leaves the lease for the next one to find. */
  lemma {:induction false} TeardownAfterPurges(x: Input, n: nat, j: nat)
    requires WellFormed(x) && n <= |x.own|
    requires j < |HandleAll(x, n).actions| && HandleAll(x, n).actions[j].Teardown?
    ensures var actions := HandleAll(x, n).actions;
            && PurgeHostnames(actions[j].lid) in actions[..j] && PurgeIPs(actions[j].lid) in actions[..j]
            && exists i | 0 <= i < n ::
                 x.own[i] == actions[j].lid && x.lucks[i].purgeHostnames && x.lucks[i].purgeIPs
  {
    var before, one, all := HandleAll(x, n - 1).actions, HandleAt(x, n - 1).actions, HandleAll(x, n).actions;
    if j < |before| {
      TeardownAfterPurges(x, n - 1, j);
      assert all[..j] == before[..j];
    } else {
      var k := |before|;
      assert one[j - k].Teardown? && one[0] == PurgeHostnames(all[j].lid) && one[1] == PurgeIPs(all[j].lid);
      assert all[k] == one[0] && all[k + 1] == one[1];
      assert all[..j][k] == one[0] && all[..j][k + 1] == one[1];
      assert x.own[n - 1] == all[j].lid;
    }
  }

  /** So a whole pass, whatever it is answered, touches only this provider's leases that the cluster lists and the chain
      reports closed. */
  lemma {:induction false} PassTouchesOnlyOwn(lids: Option<seq<LeaseID>>, owner: string, pages: seq<Response>,
                                              managed: set<LeaseID>, lookups: seq<Lookup>, lucks: seq<Luck>, a: Action)
    requires lids.Some? ==> |lookups| == |lucks| == |Own(lids.value, owner)|
    requires a in Pass(lids, owner, pages, managed, lookups, lucks).actions
    ensures lids.Some? && a.lid in lids.value && a.lid.provider == owner
    ensures exists i | 0 <= i < |lookups| :: ReportsClosed(lookups[i], a.lid)
  {
    var own := Own(lids.value, owner);
    var x := Input(own, ReadFrom(pages, 0).active, managed, lookups, lucks);
    OnlyClosedTornDown(x, a);
    var i :| 0 <= i < |own| && own[i] == a.lid && ReportsClosed(lookups[i], a.lid);
    OwnAreOwn(lids.value, owner, a.lid);
  }

  /** And a whole pass that returns no error has done everything about every lease of this provider that the cluster
      lists, the chain does not list as active, and its lookup reports closed. */
  lemma {:induction false} PassWithoutError(lids: Option<seq<LeaseID>>, owner: string, pages: seq<Response>,
                                            managed: set<LeaseID>, lookups: seq<Lookup>, lucks: seq<Luck>, i: nat)
    requires lids.Some? ==> |lookups| == |lucks| == |Own(lids.value, owner)|
    requires !Pass(lids, owner, pages, managed, lookups, lucks).failed
    ensures lids.Some?
    ensures var own := Own(lids.value, owner);
            own != [] ==>
              && ReadFrom(pages, 0).Read?
              && var x := Input(own, ReadFrom(pages, 0).active, managed, lookups, lucks);
                 i < |own| && own[i] !in x.active ==>
                   && !NoAnswer(lookups[i], own[i])
                   && (ReportsClosed(lookups[i], own[i]) ==>
                         Done(x, Pass(lids, owner, pages, managed, lookups, lucks).actions, i))
  {
    var own := Own(lids.value, owner);
    if own != [] {
      var x := Input(own, ReadFrom(pages, 0).active, managed, lookups, lucks);
      if i < |own| && own[i] !in x.active {
        NoErrorMeansConfirmed(x, i);
        if ReportsClosed(lookups[i], own[i]) { NoErrorMeansDone(x, i); }
      }
    }
  }

  /** No other lease of the provider, in the cluster or active on chain, shares the group of the `i`th. */
  ghost predicate AloneInGroup(x: Input, i: nat)
    requires i < |x.own|
  {
    && (forall j | 0 <= j < |x.own| && j != i :: x.own[j] in x.active || x.own[j].Group() != x.own[i].Group())
    && (forall l | l in x.active :: l.Group() != x.own[i].Group())
  }

  /** The pass does this about the `i`th lease. */
  ghost predicate Does(x: Input, i: nat, a: Action)
    requires WellFormed(x) && i < |x.own|
  {
    var lid, luck := x.own[i], x.lucks[i];
    && a.lid == lid && lid !in x.active && ReportsClosed(x.lookups[i], lid)
    && match a
       case PublishClosed(_, reason) => lid in x.managed && reason == x.lookups[i].reason
       case PurgeHostnames(_) => lid !in x.managed
       case PurgeIPs(_) => lid !in x.managed
       case ReleaseHostnames(_) =>
         lid !in x.managed && luck.purgeHostnames && luck.purgeIPs && AloneInGroup(x, i)
       case Teardown(_) => lid !in x.managed && luck.purgeHostnames && luck.purgeIPs
  }

  lemma {:induction false} HandleDoes(x: Input, i: nat, a: Action)
    requires WellFormed(x) && i < |x.own|
    ensures a in HandleAt(x, i).actions <==> Does(x, i, a)
  {
    ClosureIs(x.own[i], x.lookups[i]);
    if x.own[i] !in x.active { LastOfGroup(x.own, x.active, i); }
  }

  /** The pass does exactly this: for each lease in the cluster that is not active and that the chain reports closed,
      publishes the closure with the chain's reason if it is managed; otherwise purges its hostnames and IPs, and if
      both succeed tears it down, having released its hostnames if it is alone in its group. */
  lemma {:induction false} DoesExactly(x: Input, n: nat, a: Action)
    requires WellFormed(x) && n <= |x.own|
    ensures a in HandleAll(x, n).actions <==> exists i | 0 <= i < n :: Does(x, i, a)
  {
    if n > 0 {
      DoesExactly(x, n - 1, a);
      HandleDoes(x, n - 1, a);
    }
  }

  /** A whole pass fails exactly if the cluster cannot be read, or the provider has leases there and the active ones
      cannot be read to the end, or one of the leases is in trouble. */
  lemma {:induction false} PassFailsExactly(lids: Option<seq<LeaseID>>, owner: string, pages: seq<Response>,
                                            managed: set<LeaseID>, lookups: seq<Lookup>, lucks: seq<Luck>)
    requires lids.Some? ==> |lookups| == |lucks| == |Own(lids.value, owner)|
    ensures Pass(lids, owner, pages, managed, lookups, lucks).failed <==>
            || lids.None?
            || (var own := Own(lids.value, owner);
                && own != []
                && (!ReadFrom(pages, 0).Read? ||
                    var x := Input(own, ReadFrom(pages, 0).active, managed, lookups, lucks);
                    exists i | 0 <= i < |own| :: Trouble(x, i)))
  {
    if lids.Some? {
      var own := Own(lids.value, owner);
      if own != [] && ReadFrom(pages, 0).Read? {
        FailsExactly(Input(own, ReadFrom(pages, 0).active, managed, lookups, lucks), |own|);
      }
    }
  }
}
