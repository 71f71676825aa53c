/** The catch-up with open orders: a fetcher traverses the chain's open orders page by page and queues the pages; the
    service takes them from the queue, gives every order a monitor, and after the last page persists the key that page
    was requested with.  Statements about runs hold for every interleaving of the two, with orders created and drained
    meanwhile, and for every answer of the node. */
module OrderCatchup {
  import opened Market

  /** A pagination key; the empty one stands for the beginning of the orders, and for "no next page". */
  type Key = string

  /** A page queued: the orders, the key it was requested with, and the next key it named. */
  datatype Page = Page(orders: seq<OrderID>, key: Key, next: Key) {
    predicate Last() { next == "" }
  }

  /** The node's answer to one query.  `Cancelled` covers a context that ended before the page was queued. */
  datatype Response =
    | Cancelled
    | InvalidKey
    | Failed
    | Answer(orders: seq<OrderID>, next: Key)

  // ---- The fetcher ----

  /** The fetcher's variables and the pages it queued so far. */
  datatype Fetcher = Fetcher(nextKey: Key, resuming: bool, stopped: bool, pages: seq<Page>)

  function StartFetcher(persisted: Key): Fetcher {
    Fetcher(persisted, persisted != "", false, [])
  }

  function TakeAnswer(f: Fetcher, orders: seq<OrderID>, next: Key): Fetcher {
    if next != "" && next == f.nextKey then f.(resuming := false, stopped := true)
    else
      var pages := f.pages + [Page(orders, f.nextKey, next)];
      if next == "" then Fetcher(f.nextKey, false, true, pages) else Fetcher(next, false, false, pages)
  }

  function FetchStep(f: Fetcher, r: Response): Fetcher {
    if f.stopped then f
    else match r
      case Cancelled => f.(stopped := true)
      case InvalidKey => if f.resuming then f.(nextKey := "", resuming := false) else f
      case Failed => f
      case Answer(orders, next) => TakeAnswer(f, orders, next)
  }

  function Fetch(f: Fetcher, rs: seq<Response>): Fetcher {
    if rs == [] then f else FetchStep(Fetch(f, rs[..|rs| - 1]), rs[|rs| - 1])
  }

  /** The fetcher's loop over the node's answers; a list of answers that ends stands for a fetcher still waiting. */
  method OrdersFetcher(persisted: Key, responses: seq<Response>) returns (pages: seq<Page>, repeated: bool)
    ensures pages == Fetch(StartFetcher(persisted), responses).pages
    ensures repeated ==> !(exists i | 0 <= i < |pages| :: pages[i].Last())
  {
    var nextKey := persisted;
    var resuming := |persisted| > 0;
    pages, repeated := [], false;
    var i := 0;
    while i < |responses|
      invariant 0 <= i <= |responses|
      invariant Fetcher(nextKey, resuming, false, pages) == Fetch(StartFetcher(persisted), responses[..i])
      invariant forall k | 0 <= k < |pages| :: !pages[k].Last()
    {
      var r := responses[i];
      i := i + 1;
      assert responses[..i][..i - 1] == responses[..i - 1];
      ghost var f := Fetch(StartFetcher(persisted), responses[..i]);
      match r
      case Cancelled =>
        StoppedStays(persisted, responses, i);
        return;
      case InvalidKey =>
        if resuming {
          nextKey := "";
          resuming := false;
        }
      case Failed =>
      case Answer(orders, next) =>
        resuming := false;
        if |next| != 0 && next == nextKey {
          repeated := true;
          StoppedStays(persisted, responses, i);
          return;
        }
        pages := pages + [Page(orders, nextKey, next)];
        if |next| == 0 {
          StoppedStays(persisted, responses, i);
          return;
        }
        nextKey := next;
    }
    assert responses[..i] == responses;
  }

  lemma {:induction false} StoppedStays(persisted: Key, responses: seq<Response>, i: nat)
    requires i <= |responses| && Fetch(StartFetcher(persisted), responses[..i]).stopped
    ensures Fetch(StartFetcher(persisted), responses) == Fetch(StartFetcher(persisted), responses[..i])
    decreases |responses|
  {
    if i == |responses| {
      assert responses[..i] == responses;
    } else {
      var front := responses[..|responses| - 1];
      assert front[..i] == responses[..i];
      StoppedStays(persisted, front, i);
    }
  }

  /** Consecutive pages: each was requested with the key the one before it named, and only the end is a last page. */
  ghost predicate Contiguous(pages: seq<Page>) {
    forall i | 0 <= i < |pages| - 1 :: pages[i + 1].key == pages[i].next && !pages[i].Last()
  }

  /** A traversal starts at the persisted key, or at the beginning if the node refused that one. */
  ghost predicate Traversal(f: Fetcher, persisted: Key) {
    && Contiguous(f.pages)
    && (f.pages == [] ==> f.nextKey == persisted || f.nextKey == "")
    && (f.pages != [] ==> f.pages[0].key == persisted || f.pages[0].key == "")
    && (f.resuming ==> f.pages == [] && f.nextKey == persisted)
    && (f.pages != [] && !f.stopped ==> !f.resuming && f.nextKey == f.pages[|f.pages| - 1].next != "")
  }

  lemma FetchKeeps(f: Fetcher, r: Response, persisted: Key)
    requires Traversal(f, persisted)
    ensures Traversal(FetchStep(f, r), persisted)
    ensures f.pages <= FetchStep(f, r).pages
  {}

  // ---- The service ----

  /** The service's monitors, whether one could not be created, the key last persisted, and a record: the orders that
      ever had a monitor, those of the traversal that got none, the keys written. */
  datatype Service = Service(
    orders: set<OrderID>,
    incomplete: bool,
    stored: Key,
    ever: set<OrderID>,
    failed: seq<OrderID>,
    writes: seq<Key>)

  function Monitor(s: Service, o: OrderID, ok: bool): Service {
    if o in s.orders then s
    else if ok then s.(orders := s.orders + {o}, ever := s.ever + {o})
    else s.(incomplete := true, failed := s.failed + [o])
  }

  /** Whether the `i`th monitor can be created. */
  function Outcome(outcomes: seq<bool>, i: nat): bool {
    i < |outcomes| && outcomes[i]
  }

  function MonitorAll(s: Service, orders: seq<OrderID>, outcomes: seq<bool>): Service {
    if orders == [] then s
    else Monitor(MonitorAll(s, orders[..|orders| - 1], outcomes), orders[|orders| - 1], Outcome(outcomes, |orders| - 1))
  }

  function Persist(s: Service, page: Page, storeOk: bool): Service {
    if !page.Last() || s.incomplete then s
    else s.(writes := s.writes + [page.key], stored := if storeOk then page.key else s.stored)
  }

  function ProcessPage(s: Service, page: Page, outcomes: seq<bool>, storeOk: bool): Service {
    Persist(MonitorAll(s, page.orders, outcomes), page, storeOk)
  }

  /** The service's side of the catch-up: its monitors by order, and the sticky flag.  What the keeper of the key and
      the monitors' creation answer comes in as arguments. */
  class Engine {
    var orders: set<OrderID>
    var catchupIncomplete: bool
    var stored: Key

    ghost var ever: set<OrderID>
    ghost var failed: seq<OrderID>
    ghost var writes: seq<Key>

    ghost function View(): Service
      reads this
    {
      Service(orders, catchupIncomplete, stored, ever, failed, writes)
    }

    constructor (persisted: Key)
      ensures View() == Service({}, false, persisted, {}, [], [])
    {
      orders, catchupIncomplete, stored := {}, false, persisted;
      ever, failed, writes := {}, [], [];
    }

    method CreateMonitors(ids: seq<OrderID>, outcomes: seq<bool>)
      modifies this`orders, this`catchupIncomplete, this`ever, this`failed
      ensures View() == MonitorAll(old(View()), ids, outcomes)
    {
      var i := 0;
      while i < |ids|
        invariant 0 <= i <= |ids|
        invariant View() == MonitorAll(old(View()), ids[..i], outcomes)
      {
        var o := ids[i];
        assert ids[..i + 1][..i] == ids[..i];
        i := i + 1;
        if o in orders {
          continue;
        }
        if !Outcome(outcomes, i - 1) {
          catchupIncomplete := true;
          failed := failed + [o];
          continue;
        }
        orders := orders + {o};
        ever := ever + {o};
      }
      assert ids[..i] == ids;
    }

    method ProcessOrdersPage(page: Page, outcomes: seq<bool>, storeOk: bool)
      modifies this
      ensures View() == ProcessPage(old(View()), page, outcomes, storeOk)
    {
      CreateMonitors(page.orders, outcomes);
      if !page.Last() {
        return;
      }
      if catchupIncomplete {
        return;
      }
      writes := writes + [page.key];
      if storeOk {
        stored := page.key;
      }
    }

    method OnOrderCreated(o: OrderID, ok: bool)
      modifies this
      ensures View() == OnCreated(old(View()), o, ok)
    {
      if o in orders {
        return;
      }
      if ok {
        orders := orders + {o};
        ever := ever + {o};
      }
    }

    method OnOrderDrained(o: OrderID)
      modifies this`orders
      ensures View() == OnDrained(old(View()), o)
    {
      orders := orders - {o};
    }
  }

  // ---- Fetcher and service together ----

  datatype State = State(f: Fetcher, queue: seq<Page>, processed: seq<Page>, s: Service)

  datatype Event =
    | Fetched(r: Response)
    | PageTaken(outcomes: seq<bool>, storeOk: bool)
    | OrderCreated(o: OrderID, ok: bool)
    | Drained(o: OrderID)

  function Init(persisted: Key): State {
    State(StartFetcher(persisted), [], [], Service({}, false, persisted, {}, [], []))
  }

  /** An order seen as an event gets a monitor; failing that, the traversal is not to blame. */
  function OnCreated(s: Service, o: OrderID, ok: bool): Service {
    if o in s.orders || !ok then s else s.(orders := s.orders + {o}, ever := s.ever + {o})
  }

  /** An order's monitor is done; that it had one stays on record. */
  function OnDrained(s: Service, o: OrderID): Service {
    s.(orders := s.orders - {o})
  }

  function Step(st: State, e: Event): State {
    match e
    case Fetched(r) =>
      var f := FetchStep(st.f, r);
      st.(f := f, queue := st.queue + f.pages[|st.f.pages|..])
    case PageTaken(outcomes, storeOk) =>
      if st.queue == [] then st
      else st.(queue := st.queue[1..], processed := st.processed + [st.queue[0]],
               s := ProcessPage(st.s, st.queue[0], outcomes, storeOk))
    case OrderCreated(o, ok) => st.(s := OnCreated(st.s, o, ok))
    case Drained(o) => st.(s := OnDrained(st.s, o))
  }

  function Run(st: State, es: seq<Event>): State {
    if es == [] then st else Step(Run(st, es[..|es| - 1]), es[|es| - 1])
  }

  // ---- Invariants ----

  ghost predicate Monitored(s: Service, pages: seq<Page>) {
    forall i, o | 0 <= i < |pages| && o in pages[i].orders :: o in s.ever || o in s.failed
  }

  /** A key is written exactly when the last page was processed and every order of the traversal got a monitor, and it
      is the last page's key. */
  ghost predicate WritesRight(s: Service, processed: seq<Page>, persisted: Key) {
    && (s.incomplete <==> s.failed != [])
    && s.orders <= s.ever
    && s.writes == (if processed != [] && processed[|processed| - 1].Last() && s.failed == []
                    then [processed[|processed| - 1].key] else [])
    && (s.stored == persisted || s.writes == [s.stored])
  }

  ghost predicate Inv(st: State, persisted: Key) {
    && Traversal(st.f, persisted)
    && st.f.pages == st.processed + st.queue
    && Monitored(st.s, st.processed)
    && WritesRight(st.s, st.processed, persisted)
  }

  /** What one more page's orders change. */
  lemma {:induction false} MonitorAllFacts(s: Service, orders: seq<OrderID>, outcomes: seq<bool>)
    requires s.orders <= s.ever && (s.incomplete <==> s.failed != [])
    ensures var t := MonitorAll(s, orders, outcomes);
            && t.orders <= t.ever && s.ever <= t.ever && s.failed <= t.failed
            && (t.incomplete <==> t.failed != [])
            && t.writes == s.writes && t.stored == s.stored
            && forall o | o in orders :: o in t.ever || o in t.failed
  {
    if orders != [] {
      MonitorAllFacts(s, orders[..|orders| - 1], outcomes);
      assert orders == orders[..|orders| - 1] + [orders[|orders| - 1]];
    }
  }

  lemma TakeKeeps(st: State, outcomes: seq<bool>, storeOk: bool, persisted: Key)
    requires Inv(st, persisted) && st.queue != []
    ensures Inv(Step(st, PageTaken(outcomes, storeOk)), persisted)
  {
    var page := st.queue[0];
    MonitorAllFacts(st.s, page.orders, outcomes);
    var t := Step(st, PageTaken(outcomes, storeOk));
    assert t.f.pages == t.processed + t.queue;
    if st.processed != [] {
      var n := |st.processed|;
      assert st.f.pages[n] == page && st.f.pages[n - 1] == st.processed[n - 1];
    }
    var u := MonitorAll(st.s, page.orders, outcomes);
    assert Monitored(u, st.processed);
    forall i, o | 0 <= i < |t.processed| && o in t.processed[i].orders ensures o in t.s.ever || o in t.s.failed {}
  }

  lemma StepKeeps(st: State, e: Event, persisted: Key)
    requires Inv(st, persisted)
    ensures Inv(Step(st, e), persisted)
  {
    match e
    case Fetched(r) => FetchKeeps(st.f, r, persisted);
    case PageTaken(outcomes, storeOk) => if st.queue != [] { TakeKeeps(st, outcomes, storeOk, persisted); }
    case _ =>
  }

  lemma {:induction false} RunKeeps(persisted: Key, es: seq<Event>)
    ensures Inv(Run(Init(persisted), es), persisted)
  {
    if es != [] {
      RunKeeps(persisted, es[..|es| - 1]);
      StepKeeps(Run(Init(persisted), es[..|es| - 1]), es[|es| - 1], persisted);
    }
  }

  // ---- Theorems about every run ----

  /** In every run the service writes a key exactly when it has processed the last page of one traversal and every order
      of it got a monitor: then once, and the key the last page was requested with.  The pages it processed are a
      prefix of one contiguous traversal from the persisted key, or from the beginning. */
  lemma {:induction false} KeyWrittenOnce(persisted: Key, es: seq<Event>)
    ensures var st := Run(Init(persisted), es);
            && st.s.writes == (if st.processed != [] && st.processed[|st.processed| - 1].Last() && st.s.failed == []
                               then [st.processed[|st.processed| - 1].key] else [])
            && (st.s.stored == persisted || st.s.writes == [st.s.stored])
            && Contiguous(st.processed)
            && (st.processed != [] ==> st.processed[0].key == persisted || st.processed[0].key == "")
  {
    RunKeeps(persisted, es);
    var st := Run(Init(persisted), es);
    forall i | 0 <= i < |st.processed| - 1
      ensures st.processed[i + 1].key == st.processed[i].next && !st.processed[i].Last()
    {
      assert st.f.pages[i] == st.processed[i] && st.f.pages[i + 1] == st.processed[i + 1];
    }
    if st.processed != [] {
      assert st.f.pages[0] == st.processed[0];
    }
  }

  ghost predicate AllMonitored(s: Service, pages: seq<Page>) {
    forall i, o | 0 <= i < |pages| && o in pages[i].orders :: o in s.ever
  }

  lemma WrittenState(st: State, persisted: Key)
    requires Inv(st, persisted) && st.s.writes != []
    ensures st.queue == [] && st.processed == st.f.pages && st.s.failed == []
  {
    var n := |st.processed|;
    assert st.f.pages[n - 1] == st.processed[n - 1];
    assert |st.f.pages| == n;
  }

  lemma NoneFailedAllMonitored(s: Service, pages: seq<Page>)
    requires Monitored(s, pages) && s.failed == []
    ensures AllMonitored(s, pages)
  {}

  /** In every run a written key means no page is left in the queue and every order of every page had a monitor. */
  lemma {:induction false} WrittenMeansCovered(persisted: Key, es: seq<Event>)
    requires Run(Init(persisted), es).s.writes != []
    ensures var st := Run(Init(persisted), es);
            st.queue == [] && st.processed == st.f.pages && AllMonitored(st.s, st.processed)
  {
    RunKeeps(persisted, es);
    var st := Run(Init(persisted), es);
    WrittenState(st, persisted);
    NoneFailedAllMonitored(st.s, st.processed);
  }

  lemma {:induction false} StoppedFetcher(st: State, es: seq<Event>)
    requires st.f.stopped
    ensures Run(st, es).f == st.f
  {
    if es != [] {
      StoppedFetcher(st, es[..|es| - 1]);
    }
  }

  lemma {:induction false} RunAppend(st: State, es: seq<Event>, more: seq<Event>)
    ensures Run(st, es + more) == Run(Run(st, es), more)
  {
    if more == [] {
      assert es + more == es;
    } else {
      RunAppend(st, es, more[..|more| - 1]);
      assert (es + more)[..|es + more| - 1] == es + more[..|more| - 1];
    }
  }

  /** A fetcher that stopped before a last page, for a next key repeated or a context ended, leaves the persisted key
      alone for good: in no continuation is one written. */
  lemma {:induction false} StoppedEarlyWritesNothing(persisted: Key, es: seq<Event>, more: seq<Event>)
    requires var f := Run(Init(persisted), es).f; f.stopped && (f.pages == [] || !f.pages[|f.pages| - 1].Last())
    ensures var s := Run(Init(persisted), es + more).s; s.writes == [] && s.stored == persisted
  {
    RunAppend(Init(persisted), es, more);
    StoppedFetcher(Run(Init(persisted), es), more);
    RunKeeps(persisted, es + more);
    var st := Run(Init(persisted), es + more);
    if st.processed != [] {
      var n := |st.processed| - 1;
      assert st.f.pages[n] == st.processed[n];
    }
  }

  // ---- A node that serves consecutive slices of an ordered list ----

  /** The node's open orders in order, and where each key it knows points. */
  datatype Node = Node(list: seq<OrderID>, at: map<Key, nat>)

  /** Where a page begins and ends in the node's list. */
  function Begin(node: Node, page: Page): nat {
    if page.key in node.at then node.at[page.key] else 0
  }

  function End(node: Node, page: Page): nat {
    Begin(node, page) + |page.orders|
  }

  ghost predicate Honest(node: Node, page: Page) {
    && page.key in node.at && End(node, page) <= |node.list|
    && page.orders == node.list[Begin(node, page)..End(node, page)]
    && (page.Last() ==> End(node, page) == |node.list|)
    && (!page.Last() ==> page.next in node.at && node.at[page.next] == End(node, page))
  }

  function AllOrders(pages: seq<Page>): seq<OrderID> {
    if pages == [] then [] else AllOrders(pages[..|pages| - 1]) + pages[|pages| - 1].orders
  }

  lemma SliceAdds(list: seq<OrderID>, from: nat, mid: nat, to: nat)
    requires from <= mid <= to <= |list|
    ensures list[from..mid] + list[mid..to] == list[from..to]
  {}

  /** A contiguous traversal of such a node yields one slice of its list, from the first page's key on. */
  lemma {:induction false} SlicesJoin(node: Node, pages: seq<Page>)
    requires pages != [] && Contiguous(pages) && forall i | 0 <= i < |pages| :: Honest(node, pages[i])
    ensures var from, to := Begin(node, pages[0]), End(node, pages[|pages| - 1]);
            from <= to <= |node.list| && AllOrders(pages) == node.list[from..to]
  {
    var n := |pages| - 1;
    var front := pages[..n];
    assert Honest(node, pages[n]);
    if n == 0 {
      assert AllOrders(front) == [];
    } else {
      SlicesJoin(node, front);
      assert Honest(node, pages[n - 1]) && pages[n - 1 + 1].key == pages[n - 1].next;
      SliceAdds(node.list, Begin(node, pages[0]), Begin(node, pages[n]), End(node, pages[n]));
    }
  }

  lemma {:induction false} AllOrdersIn(pages: seq<Page>, o: OrderID) returns (i: nat)
    requires o in AllOrders(pages)
    ensures i < |pages| && o in pages[i].orders
  {
    i := |pages| - 1;
    if o !in pages[i].orders {
      i := AllOrdersIn(pages[..i], o);
    }
  }

  /** If the node answers with consecutive slices of an ordered list, a written key means that every order of that list
      from where the traversal started had a monitor, and that the pages were exactly those orders, in order. */
  lemma {:induction false} CatchUpCoversAll(persisted: Key, es: seq<Event>, node: Node, q: nat)
    requires var st := Run(Init(persisted), es);
             st.s.writes != [] && forall i | 0 <= i < |st.f.pages| :: Honest(node, st.f.pages[i])
    ensures var pages := Run(Init(persisted), es).f.pages;
            && pages != [] && Begin(node, pages[0]) <= |node.list|
            && AllOrders(pages) == node.list[Begin(node, pages[0])..]
            && (Begin(node, pages[0]) <= q < |node.list| ==> node.list[q] in Run(Init(persisted), es).s.ever)
  {
    KeyWrittenOnce(persisted, es);
    WrittenMeansCovered(persisted, es);
    var st := Run(Init(persisted), es);
    LastEnds(node, st.f.pages);
    if Begin(node, st.f.pages[0]) <= q < |node.list| {
      ListCovered(node, st.f.pages, st.s, q);
    }
  }

  lemma {:induction false} ListCovered(node: Node, pages: seq<Page>, s: Service, q: nat)
    requires pages != [] && Begin(node, pages[0]) <= q < |node.list|
    requires AllOrders(pages) == node.list[Begin(node, pages[0])..]
    requires AllMonitored(s, pages)
    ensures node.list[q] in s.ever
  {
    var o, from := node.list[q], Begin(node, pages[0]);
    assert o in AllOrders(pages) by {
      assert o == node.list[from..][q - from];
    }
    var i := AllOrdersIn(pages, o);
  }

  lemma {:induction false} LastEnds(node: Node, pages: seq<Page>)
    requires pages != [] && Contiguous(pages) && pages[|pages| - 1].Last()
    requires forall i | 0 <= i < |pages| :: Honest(node, pages[i])
    ensures Begin(node, pages[0]) <= |node.list| && AllOrders(pages) == node.list[Begin(node, pages[0])..]
  {
    SlicesJoin(node, pages);
    assert Honest(node, pages[|pages| - 1]);
  }
}
