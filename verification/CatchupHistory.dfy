/** The catch-up told from its events: which key the fetcher asks with and what it queues, which orders have a monitor,
    and what is persisted, in terms of the node's answers and the events before. */
module CatchupHistory {
  import opened Market
  import opened OrderCatchup

  // ---- The fetcher ----

  /** The persisted key was not answered and not refused yet. */
  ghost predicate Resuming(persisted: Key, rs: seq<Response>) {
    persisted != "" && forall i | 0 <= i < |rs| :: !rs[i].Answer? && !rs[i].InvalidKey?
  }

  /** The key the fetcher asks with next: the next one named last; before that the persisted one, unless the node
      refused it, and then none. */
  ghost function Asking(persisted: Key, rs: seq<Response>): Key {
    if rs == [] then persisted
    else
      var front, r := rs[..|rs| - 1], rs[|rs| - 1];
      if r.Answer? && r.next != "" then r.next
      else if r.InvalidKey? && Resuming(persisted, front) then ""
      else Asking(persisted, front)
  }

  /** The answer names the key asked with as the next one. */
  ghost predicate Repeats(r: Response, key: Key) {
    r.Answer? && r.next != "" && r.next == key
  }

  ghost predicate Ends(r: Response, key: Key) {
    r.Cancelled? || Repeats(r, key) || (r.Answer? && r.next == "")
  }

  ghost predicate Means(f: Fetcher, key: Key, resuming: bool) {
    !f.stopped ==> f.nextKey == key && f.resuming == resuming
  }

  lemma {:induction false} FetchMeans(persisted: Key, rs: seq<Response>)
    ensures Means(Fetch(StartFetcher(persisted), rs), Asking(persisted, rs), Resuming(persisted, rs))
  {
    if rs != [] {
      var front, r := rs[..|rs| - 1], rs[|rs| - 1];
      FetchMeans(persisted, front);
      ResumingNext(persisted, front, r);
      assert front + [r] == rs;
    }
  }

  lemma {:induction false} ResumingNext(persisted: Key, rs: seq<Response>, r: Response)
    ensures Resuming(persisted, rs + [r]) <==> Resuming(persisted, rs) && !r.Answer? && !r.InvalidKey?
  {
    var all := rs + [r];
    assert all[|rs|] == r;
    if Resuming(persisted, all) {
      forall i | 0 <= i < |rs| ensures !rs[i].Answer? && !rs[i].InvalidKey? {
        assert all[i] == rs[i];
      }
    }
  }

  /** The fetcher, until it stops, queues every page answered under the key it asked with, except one that names that
      key as the next; it stops at that one, at the last page, and when its context ends, and asks again otherwise. */
  lemma {:induction false} FetchesExactly(persisted: Key, rs: seq<Response>, r: Response)
    ensures var f, g := Fetch(StartFetcher(persisted), rs), Fetch(StartFetcher(persisted), rs + [r]);
            var key := Asking(persisted, rs);
            if f.stopped then g == f
            else
              && (g.stopped <==> Ends(r, key))
              && g.pages == f.pages + if r.Answer? && !Repeats(r, key) then [Page(r.orders, key, r.next)] else []
  {
    FetchMeans(persisted, rs);
    assert (rs + [r])[..|rs|] == rs;
  }

  /** The node's answers among the events. */
  ghost function Responses(es: seq<Event>): seq<Response> {
    if es == [] then []
    else Responses(es[..|es| - 1]) + if es[|es| - 1].Fetched? then [es[|es| - 1].r] else []
  }

  lemma {:induction false} FetcherIs(persisted: Key, es: seq<Event>)
    ensures Run(Init(persisted), es).f == Fetch(StartFetcher(persisted), Responses(es))
  {
    if es != [] {
      var front, e := es[..|es| - 1], es[|es| - 1];
      FetcherIs(persisted, front);
      if e.Fetched? {
        assert Responses(es)[..|Responses(es)| - 1] == Responses(front);
      } else {
        assert Responses(es) == Responses(front);
      }
    }
  }

  lemma {:induction false} TakesIs(persisted: Key, es: seq<Event>)
    ensures |Run(Init(persisted), es).processed| == Takes(persisted, es)
  {
    if es != [] { TakesIs(persisted, es[..|es| - 1]); }
  }

  /** In every run the fetcher's part is what those answers alone make it, and the pages it queued are taken in order,
      one at a time. */
  lemma {:induction false} PagesInOrder(persisted: Key, es: seq<Event>)
    ensures var st := Run(Init(persisted), es);
            && st.f == Fetch(StartFetcher(persisted), Responses(es))
            && st.f.pages == st.processed + st.queue
            && |st.processed| == Takes(persisted, es)
  {
    RunKeeps(persisted, es);
    FetcherIs(persisted, es);
    TakesIs(persisted, es);
  }

  /** How often a page was taken while one was queued. */
  ghost function Takes(persisted: Key, es: seq<Event>): nat {
    if es == [] then 0
    else
      var front := es[..|es| - 1];
      Takes(persisted, front) + if es[|es| - 1].PageTaken? && Run(Init(persisted), front).queue != [] then 1 else 0
  }

  // ---- Who has a monitor ----

  /** The page an event takes from the queue. */
  ghost function TakenPage(persisted: Key, es: seq<Event>, e: Event): Option<Page> {
    var queue := Run(Init(persisted), es).queue;
    if e.PageTaken? && queue != [] then Some(queue[0]) else None
  }

  /** A monitor could be created for the order when the page's `k`th order was looked at. */
  ghost predicate Created(orders: seq<OrderID>, outcomes: seq<bool>, o: OrderID, k: nat) {
    k < |orders| && orders[k] == o && Outcome(outcomes, k)
  }

  ghost predicate GetsOne(orders: seq<OrderID>, outcomes: seq<bool>, o: OrderID) {
    exists k: nat :: Created(orders, outcomes, o, k)
  }

  /** The order has a monitor: one was created, on an event or from a page, and has not been drained since. */
  ghost predicate HasMonitor(persisted: Key, es: seq<Event>, o: OrderID) {
    es != [] && var front, e := es[..|es| - 1], es[|es| - 1];
    match e
    case Fetched(_) => HasMonitor(persisted, front, o)
    case OrderCreated(created, ok) => HasMonitor(persisted, front, o) || (created == o && ok)
    case Drained(drained) => drained != o && HasMonitor(persisted, front, o)
    case PageTaken(outcomes, _) =>
      || HasMonitor(persisted, front, o)
      || (TakenPage(persisted, front, e).Some? && GetsOne(TakenPage(persisted, front, e).value.orders, outcomes, o))
  }

  lemma {:induction false} MonitorAllIff(s: Service, orders: seq<OrderID>, outcomes: seq<bool>, o: OrderID)
    ensures o in MonitorAll(s, orders, outcomes).orders <==> o in s.orders || GetsOne(orders, outcomes, o)
  {
    if orders != [] {
      var n := |orders| - 1;
      var front := orders[..n];
      MonitorAllIff(s, front, outcomes, o);
      assert Created(orders, outcomes, o, n) <==> orders[n] == o && Outcome(outcomes, n);
      if GetsOne(front, outcomes, o) {
        var k: nat :| Created(front, outcomes, o, k);
        assert Created(orders, outcomes, o, k);
      }
      if GetsOne(orders, outcomes, o) && !Created(orders, outcomes, o, n) {
        var k: nat :| Created(orders, outcomes, o, k);
        assert Created(front, outcomes, o, k);
      }
    }
  }

  /** In every run exactly the orders with a monitor are those for which one was created and not drained since. */
  lemma {:induction false} MonitoredExactly(persisted: Key, es: seq<Event>, o: OrderID)
    ensures o in Run(Init(persisted), es).s.orders <==> HasMonitor(persisted, es, o)
  {
    if es != [] {
      var front, e := es[..|es| - 1], es[|es| - 1];
      MonitoredExactly(persisted, front, o);
      var st := Run(Init(persisted), front);
      if e.PageTaken? && st.queue != [] { MonitorAllIff(st.s, st.queue[0].orders, e.outcomes, o); }
    }
  }

  // ---- What is persisted ----

  /** The page's `k`th order gets no monitor: it has none, none was created for it earlier in the page, and none can be
      now. */
  ghost predicate Missed(had: set<OrderID>, orders: seq<OrderID>, outcomes: seq<bool>, k: nat) {
    && k < |orders| && orders[k] !in had && !Outcome(outcomes, k)
    && forall j: nat | j < k :: !Created(orders, outcomes, orders[k], j)
  }

  ghost predicate Misses(had: set<OrderID>, orders: seq<OrderID>, outcomes: seq<bool>) {
    exists k: nat :: Missed(had, orders, outcomes, k)
  }

  lemma {:induction false} MonitorAllMisses(s: Service, orders: seq<OrderID>, outcomes: seq<bool>)
    ensures MonitorAll(s, orders, outcomes).incomplete <==> s.incomplete || Misses(s.orders, orders, outcomes)
  {
    if orders != [] {
      var n := |orders| - 1;
      var front, o := orders[..n], orders[n];
      MonitorAllMisses(s, front, outcomes);
      MonitorAllIff(s, front, outcomes, o);
      CreatedBefore(orders, outcomes, o);
      assert Missed(s.orders, orders, outcomes, n) <==>
             o !in s.orders && !Outcome(outcomes, n) && !GetsOne(front, outcomes, o);
      if Misses(s.orders, front, outcomes) {
        var k: nat :| Missed(s.orders, front, outcomes, k);
        MissedSame(s.orders, orders, outcomes, k);
      }
      if Misses(s.orders, orders, outcomes) && !Missed(s.orders, orders, outcomes, n) {
        var k: nat :| Missed(s.orders, orders, outcomes, k);
        MissedSame(s.orders, orders, outcomes, k);
      }
    }
  }

  lemma MissedSame(had: set<OrderID>, orders: seq<OrderID>, outcomes: seq<bool>, k: nat)
    requires k < |orders| - 1
    ensures Missed(had, orders, outcomes, k) <==> Missed(had, orders[..|orders| - 1], outcomes, k)
  {
    var front := orders[..|orders| - 1];
    assert forall j: nat | j < k :: Created(orders, outcomes, orders[k], j) <==> Created(front, outcomes, front[k], j);
  }

  lemma CreatedBefore(orders: seq<OrderID>, outcomes: seq<bool>, o: OrderID)
    requires orders != []
    ensures var n := |orders| - 1;
            GetsOne(orders[..n], outcomes, o) <==> exists j: nat :: j < n && Created(orders, outcomes, o, j)
  {
    var n := |orders| - 1;
    if GetsOne(orders[..n], outcomes, o) {
      var j: nat :| Created(orders[..n], outcomes, o, j);
      assert j < n && Created(orders, outcomes, o, j);
    }
    if exists j: nat :: j < n && Created(orders, outcomes, o, j) {
      var j: nat :| j < n && Created(orders, outcomes, o, j);
      assert Created(orders[..n], outcomes, o, j);
    }
  }

  /** In every run the catch-up is incomplete exactly since some order of a page got no monitor; and a page taken
      persists its key, if the store takes it, exactly if it is the last and the catch-up is complete with it.  Nothing
      else touches either. */
  lemma {:induction false} PersistsExactly(persisted: Key, es: seq<Event>, e: Event)
    ensures var st, tt := Run(Init(persisted), es), Run(Init(persisted), es + [e]);
            var page := TakenPage(persisted, es, e);
            if page.None? then
              tt.s.incomplete == st.s.incomplete && tt.s.stored == st.s.stored && tt.s.writes == st.s.writes
            else
              && (tt.s.incomplete <==> st.s.incomplete || Misses(st.s.orders, page.value.orders, e.outcomes))
              && var write := page.value.next == "" && !tt.s.incomplete;
                 && tt.s.writes == st.s.writes + (if write then [page.value.key] else [])
                 && tt.s.stored == if write && e.storeOk then page.value.key else st.s.stored
  {
    assert (es + [e])[..|es|] == es;
    var st := Run(Init(persisted), es);
    if e.PageTaken? && st.queue != [] {
      MonitorAllMisses(st.s, st.queue[0].orders, e.outcomes);
      MonitorAllKeeps(st.s, st.queue[0].orders, e.outcomes);
    }
  }

  lemma {:induction false} MonitorAllKeeps(s: Service, orders: seq<OrderID>, outcomes: seq<bool>)
    ensures var t := MonitorAll(s, orders, outcomes); t.writes == s.writes && t.stored == s.stored
  {
    if orders != [] { MonitorAllKeeps(s, orders[..|orders| - 1], outcomes); }
  }
}
