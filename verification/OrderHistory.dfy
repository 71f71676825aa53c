/** One order's bidding told from its events: which results are outstanding, which event ends the run and with what, and
    what the record then holds, in terms of the results received before. */
module OrderHistory {
  import opened Market
  import opened OrderLoop

  /** The results received so far, each `None` until it came: the lookup of an existing bid, which may have found one,
      the group, the decision, the reservation, the price and the bid. */
  datatype Seen = Seen(
    looked: bool,
    found: Option<bool>,
    group: Option<Option<Price>>,
    decision: Option<Option<bool>>,
    reserve: Option<bool>,
    price: Option<Option<Price>>,
    bid: Option<bool>)

  const NOTHING := Seen(false, None, None, None, None, None, None)

  function See(seen: Seen, k: Kind): Seen {
    match k
    case BidNotFound => seen.(looked := true)
    case QueryError => seen.(looked := true)
    case BidFound(open, _) => seen.(looked := true, found := Some(open))
    case GroupDone(max) => seen.(group := Some(max))
    case DecisionDone(bid) => seen.(decision := Some(bid))
    case ReserveDone(ok) => seen.(reserve := Some(ok))
    case PriceDone(price) => seen.(price := Some(price))
    case BidDone(ok) => seen.(bid := Some(ok))
    case _ => seen
  }

  ghost function Results(cfg: Config, check: bool, es: seq<Event>): Seen {
    if es == [] then NOTHING
    else
      var front, e := es[..|es| - 1], es[|es| - 1];
      var seen := Results(cfg, check, front);
      if Enabled(Run(cfg, Init(check), front), e.kind) then See(seen, e.kind) else seen
  }

  // ---- What the results received say ----

  predicate OpenBid(seen: Seen) {
    seen.found == Some(true)
  }

  function Group(seen: Seen): Option<Price> {
    if seen.group.Some? then seen.group.value else None
  }

  predicate Sent(seen: Seen) {
    seen.price.Some? && seen.price.value.Some?
  }

  predicate Placed(seen: Seen) {
    OpenBid(seen) || seen.bid == Some(true)
  }

  /** The results outstanding: each step of the protocol follows a good result of the one before, pricing and bidding
      only without an open bid, and the bid's timeout comes with the bid. */
  function Outstanding(cfg: Config, check: bool, seen: Seen): Channels {
    Channels(check && !seen.looked,
             check && !seen.looked,
             seen.group.None? && (check ==> seen.looked),
             Group(seen).Some? && seen.decision.None?,
             seen.decision == Some(Some(true)) && seen.reserve.None?,
             seen.reserve == Some(true) && !OpenBid(seen) && seen.price.None?,
             Sent(seen) && seen.bid.None?,
             cfg.timeoutEnabled && Placed(seen))
  }

  /** What the record of a run in its loop holds. */
  function Record(seen: Seen): seq<Action> {
    If(OpenBid(seen), FoundOpenBid)
    + (if Group(seen).Some? then [GroupFetched(Group(seen).value)] else [])
    + If(seen.reserve == Some(true), Granted)
    + (if Sent(seen) then [CreateBid(seen.price.value.value)] else [])
    + If(seen.bid == Some(true), BidLanded)
  }

  /** Why an event ends the run, if it does, given the group fetched. */
  function Ends(cfg: Config, group: Option<Price>, k: Kind): Option<Reason> {
    match k
    case ShutdownRequest => Some(Shutdown)
    case BidNotFound => None
    case QueryError => Some(QueryFailed)
    case BidFound(open, stale) =>
      if !open then Some(BidNotOpen) else if stale && cfg.timeoutEnabled then Some(BidStale) else None
    case LeaseCreated(lease) =>
      if lease.Group() != cfg.order.group then None
      else if lease.provider == cfg.address then Some(LeaseWon) else Some(LeaseLost)
    case OrderCloses(order) => if order == cfg.order then Some(OrderClosed) else None
    case BidCloses(g, provider) =>
      if g == cfg.order.group && provider == cfg.providerText then Some(BidClosed) else None
    case GroupDone(max) => if max.None? then Some(GroupFailed) else None
    case DecisionDone(bid) =>
      if bid.None? then Some(DecisionFailed) else if bid == Some(false) then Some(Declined) else None
    case ReserveDone(ok) => if ok then None else Some(ReserveFailed)
    case PriceDone(price) =>
      if price.None? then Some(PricingFailed)
      else if BidAllowed(group, price.value) then None
      else if group.Some? && group.value.denom == price.value.denom then Some(PriceTooHigh)
      else Some(WrongDenom)
    case BidDone(ok) => if ok then None else Some(BidFailed)
    case TimeoutFires => Some(TimedOut)
  }

  /** The results came in the protocol's order, and all were good. */
  ghost predicate InOrder(check: bool, seen: Seen) {
    && (seen.looked ==> check)
    && (seen.found.Some? ==> seen.looked && OpenBid(seen))
    && (seen.group.Some? ==> (check ==> seen.looked) && Group(seen).Some?)
    && (seen.decision.Some? ==> Group(seen).Some? && seen.decision == Some(Some(true)))
    && (seen.reserve.Some? ==> seen.decision.Some? && seen.reserve == Some(true))
    && (seen.price.Some? ==> seen.reserve.Some? && !OpenBid(seen) && Sent(seen))
    && (seen.bid.Some? ==> Sent(seen) && seen.bid == Some(true))
  }

  ghost predicate Means(cfg: Config, check: bool, s: State, seen: Seen) {
    && InOrder(check, seen)
    && s.exit.None? && !s.won
    && s.ch == Outstanding(cfg, check, seen)
    && s.group == Group(seen)
    && s.reserved == (seen.reserve == Some(true))
    && s.bidPlaced == Placed(seen)
    && s.log == Record(seen)
  }

  // ---- The end of a run ----

  /** What is on record of the event that ends the run: a price not allowed makes no bid. */
  function AtEnd(seen: Seen, k: Kind): Seen {
    if k.PriceDone? then seen else See(seen, k)
  }

  predicate InFlight(seen: Seen) {
    seen.decision == Some(Some(true)) && seen.reserve.None?
  }

  /** The bid to close: one placed and not reported closed, and if the lease was lost also one sent. */
  predicate ToClose(seen: Seen, reason: Reason) {
    !reason.BidClosed? && (Placed(seen) || (reason.LeaseLost? && Sent(seen) && seen.bid.None?))
  }

  /** What the record holds after leaving: a reservation still in flight may turn out granted, and unless the order is
      won whatever was granted is given back and the bid closed. */
  function Closing(granted: bool, late: bool, placed: bool, won: bool): seq<Action> {
    If(late, Granted) + (if won then [] else If(granted || late, Unreserve) + If(placed, CloseBid))
  }

  function EndRecord(seen: Seen, k: Kind, reason: Reason, late: bool): seq<Action> {
    var after := AtEnd(seen, k);
    Record(after)
    + (if k.LeaseCreated? && reason.LeaseWon? then [Won(k.lease)] else [])
    + Closing(after.reserve == Some(true), InFlight(after) && late, ToClose(after, reason), reason.LeaseWon?)
  }

  lemma LeaveCloses(s: State, r: Reason, late: bool)
    ensures var t := Leave(s, r, late);
            && t.exit == Some(r) && t.won == s.won
            && t.log == s.log + Closing(s.reserved, s.ch.cluster && late, s.bidPlaced, s.won)
  {}

  /** What the run is left with after an event it takes. */
  ghost predicate Follows(cfg: Config, check: bool, t: State, seen: Seen, e: Event) {
    match Ends(cfg, Group(seen), e.kind)
    case None => Means(cfg, check, t, See(seen, e.kind))
    case Some(reason) =>
      t.exit == Some(reason) && t.won == reason.LeaseWon? && t.log == EndRecord(seen, e.kind, reason, e.late)
  }

  /** An event that ends the run from a state that differs from the one before it as the event says. */
  lemma LeaveFollows(cfg: Config, check: bool, seen: Seen, e: Event, reason: Reason, t: State)
    requires Ends(cfg, Group(seen), e.kind) == Some(reason) && t.won == reason.LeaseWon?
    requires t.log == Record(AtEnd(seen, e.kind)) + if e.kind.LeaseCreated? && t.won then [Won(e.kind.lease)] else []
    requires t.ch.cluster == InFlight(AtEnd(seen, e.kind))
    requires t.reserved == (AtEnd(seen, e.kind).reserve == Some(true))
    requires t.bidPlaced == ToClose(AtEnd(seen, e.kind), reason)
    ensures Follows(cfg, check, Leave(t, reason, e.late), seen, e)
  {
    LeaveCloses(t, reason, e.late);
  }

  lemma LookupFollows(cfg: Config, check: bool, s: State, seen: Seen, e: Event)
    requires Means(cfg, check, s, seen) && s.ch.query && e.kind.BidFound?
    ensures Follows(cfg, check, Step(cfg, s, e), seen, e)
  {
    var t := s.(ch := s.ch.(query := false));
    assert Record(seen) == [] && Record(See(seen, BidFound(true, false))) == [FoundOpenBid];
    if !e.kind.open {
      assert Record(See(seen, e.kind)) == [];
      LeaveFollows(cfg, check, seen, e, BidNotOpen, t);
    } else if e.kind.stale && cfg.timeoutEnabled {
      assert See(seen, e.kind) == See(seen, BidFound(true, false));
      LeaveFollows(cfg, check, seen, e, BidStale, Adopt(t));
    }
  }

  lemma GroupFollows(cfg: Config, check: bool, s: State, seen: Seen, e: Event)
    requires Means(cfg, check, s, seen) && s.ch.group && e.kind.GroupDone?
    ensures Follows(cfg, check, Step(cfg, s, e), seen, e)
  {
    var t := s.(ch := s.ch.(group := false));
    if e.kind.max.None? {
      assert Record(See(seen, e.kind)) == Record(seen);
      LeaveFollows(cfg, check, seen, e, GroupFailed, t);
    } else {
      assert Record(See(seen, e.kind)) == Record(seen) + [GroupFetched(e.kind.max.value)];
    }
  }

  lemma DecisionFollows(cfg: Config, check: bool, s: State, seen: Seen, e: Event)
    requires Means(cfg, check, s, seen) && s.ch.decision && e.kind.DecisionDone?
    ensures Follows(cfg, check, Step(cfg, s, e), seen, e)
  {
    var t := s.(ch := s.ch.(decision := false));
    if e.kind.bid.None? {
      LeaveFollows(cfg, check, seen, e, DecisionFailed, t);
    } else if !e.kind.bid.value {
      LeaveFollows(cfg, check, seen, e, Declined, t);
    }
  }

  lemma ReserveFollows(cfg: Config, check: bool, s: State, seen: Seen, e: Event)
    requires Means(cfg, check, s, seen) && s.ch.cluster && e.kind.ReserveDone?
    ensures Follows(cfg, check, Step(cfg, s, e), seen, e)
  {
    var t := s.(ch := s.ch.(cluster := false));
    if !e.kind.ok {
      assert Record(See(seen, e.kind)) == Record(seen);
      LeaveFollows(cfg, check, seen, e, ReserveFailed, t);
    } else {
      assert Record(See(seen, e.kind)) == Record(seen) + [Granted];
    }
  }

  lemma PriceFollows(cfg: Config, check: bool, s: State, seen: Seen, e: Event)
    requires Means(cfg, check, s, seen) && s.ch.price && e.kind.PriceDone?
    ensures Follows(cfg, check, Step(cfg, s, e), seen, e)
  {
    var t := s.(ch := s.ch.(price := false));
    var price := e.kind.price;
    if price.None? {
      LeaveFollows(cfg, check, seen, e, PricingFailed, t);
    } else if s.group.value.denom != price.value.denom {
      LeaveFollows(cfg, check, seen, e, WrongDenom, t);
    } else if s.group.value.amount < price.value.amount {
      LeaveFollows(cfg, check, seen, e, PriceTooHigh, t);
    } else {
      assert Record(See(seen, e.kind)) == Record(seen) + [CreateBid(price.value)];
    }
  }

  lemma BidFollows(cfg: Config, check: bool, s: State, seen: Seen, e: Event)
    requires Means(cfg, check, s, seen) && s.ch.bid && e.kind.BidDone?
    ensures Follows(cfg, check, Step(cfg, s, e), seen, e)
  {
    var t := s.(ch := s.ch.(bid := false));
    if !e.kind.ok {
      assert Record(See(seen, e.kind)) == Record(seen);
      LeaveFollows(cfg, check, seen, e, BidFailed, t);
    } else {
      assert Record(See(seen, e.kind)) == Record(seen) + [BidLanded];
    }
  }

  lemma LeaseFollows(cfg: Config, check: bool, s: State, seen: Seen, e: Event)
    requires Means(cfg, check, s, seen) && e.kind.LeaseCreated?
    ensures Follows(cfg, check, Step(cfg, s, e), seen, e)
  {
    var lease := e.kind.lease;
    if lease.Group() == cfg.order.group {
      if lease.provider != cfg.address {
        LeaveFollows(cfg, check, seen, e, LeaseLost, s.(bidPlaced := s.bidPlaced || s.ch.bid));
      } else {
        var t := s.(log := s.log + [Won(lease)], won := true);
        LeaveCloses(t, LeaseWon, e.late);
      }
    }
  }

  lemma OtherFollows(cfg: Config, check: bool, s: State, seen: Seen, e: Event)
    requires Means(cfg, check, s, seen) && Enabled(s, e.kind)
    requires || e.kind.ShutdownRequest? || e.kind.BidNotFound? || e.kind.QueryError? || e.kind.OrderCloses?
             || e.kind.BidCloses? || e.kind.TimeoutFires?
    ensures Follows(cfg, check, Step(cfg, s, e), seen, e)
  {
    match e.kind
    case ShutdownRequest => LeaveFollows(cfg, check, seen, e, Shutdown, s);
    case QueryError => LeaveFollows(cfg, check, seen, e, QueryFailed, s.(ch := s.ch.(query := false)));
    case OrderCloses(order) => if order == cfg.order { LeaveFollows(cfg, check, seen, e, OrderClosed, s); }
    case BidCloses(g, provider) =>
      if g == cfg.order.group && provider == cfg.providerText {
        LeaveFollows(cfg, check, seen, e, BidClosed, s.(bidPlaced := false));
      }
    case TimeoutFires => LeaveFollows(cfg, check, seen, e, TimedOut, s.(ch := s.ch.(timeout := false)));
    case _ =>
  }

  lemma StepFollows(cfg: Config, check: bool, s: State, seen: Seen, e: Event)
    requires Means(cfg, check, s, seen) && Enabled(s, e.kind)
    ensures Follows(cfg, check, Step(cfg, s, e), seen, e)
  {
    match e.kind
    case BidFound(_, _) => LookupFollows(cfg, check, s, seen, e);
    case GroupDone(_) => GroupFollows(cfg, check, s, seen, e);
    case DecisionDone(_) => DecisionFollows(cfg, check, s, seen, e);
    case ReserveDone(_) => ReserveFollows(cfg, check, s, seen, e);
    case PriceDone(_) => PriceFollows(cfg, check, s, seen, e);
    case BidDone(_) => BidFollows(cfg, check, s, seen, e);
    case LeaseCreated(_) => LeaseFollows(cfg, check, s, seen, e);
    case _ => OtherFollows(cfg, check, s, seen, e);
  }

  // ---- Theorems about every run ----

  lemma {:induction false} RunMeans(cfg: Config, check: bool, es: seq<Event>)
    requires Run(cfg, Init(check), es).exit.None?
    ensures Means(cfg, check, Run(cfg, Init(check), es), Results(cfg, check, es))
  {
    if es != [] {
      var front, e := es[..|es| - 1], es[|es| - 1];
      var s := Run(cfg, Init(check), front);
      RunMeans(cfg, check, front);
      if Enabled(s, e.kind) { StepFollows(cfg, check, s, Results(cfg, check, front), e); }
    }
  }

  /** In every run still in its loop the results received came in the protocol's order, and they alone say which results
      are outstanding, what is held, and what the record holds. */
  lemma {:induction false} ResultsTell(cfg: Config, check: bool, es: seq<Event>)
    requires Run(cfg, Init(check), es).exit.None?
    ensures var s, seen := Run(cfg, Init(check), es), Results(cfg, check, es);
            && InOrder(check, seen)
            && s.ch == Outstanding(cfg, check, seen)
            && s.log == Record(seen)
            && s.reserved == (seen.reserve == Some(true)) && s.bidPlaced == Placed(seen)
  {
    RunMeans(cfg, check, es);
  }

  /** In every run an event taken ends it if and only if it is one that `Ends` lists, for the reason listed, and the
      record of the run is then the one its results and the end call for. */
  lemma {:induction false} EndsExactly(cfg: Config, check: bool, es: seq<Event>, e: Event)
    requires Enabled(Run(cfg, Init(check), es), e.kind)
    ensures var t, seen := Run(cfg, Init(check), es + [e]), Results(cfg, check, es);
            && t.exit == Ends(cfg, Group(seen), e.kind)
            && (t.exit.Some? ==> t.log == EndRecord(seen, e.kind, t.exit.value, e.late))
            && (t.won <==> t.exit == Some(LeaseWon))
  {
    RunMeans(cfg, check, es);
    RunOneMore(cfg, check, es, e);
    StepFollows(cfg, check, Run(cfg, Init(check), es), Results(cfg, check, es), e);
  }

  lemma {:induction false} RunOneMore(cfg: Config, check: bool, es: seq<Event>, e: Event)
    ensures Run(cfg, Init(check), es + [e]) == Step(cfg, Run(cfg, Init(check), es), e)
  {
    assert (es + [e])[..|es|] == es;
  }

  // ---- The decision ----

  ghost predicate Commits(log: seq<Action>) {
    exists i | 0 <= i < |log| :: log[i].Granted? || log[i].CreateBid?
  }

  lemma RecordCommits(seen: Seen)
    ensures Commits(Record(seen)) ==> seen.reserve == Some(true) || Sent(seen)
  {}

  lemma ClosingCommits(granted: bool, late: bool, placed: bool, won: bool)
    ensures Commits(Closing(granted, late, placed, won)) ==> late
  {}

  lemma CommitsJoin(a: seq<Action>, b: seq<Action>)
    ensures Commits(a + b) ==> Commits(a) || Commits(b)
  {
    if Commits(a + b) {
      var i :| 0 <= i < |a + b| && ((a + b)[i].Granted? || (a + b)[i].CreateBid?);
      if i < |a| { assert a[i] == (a + b)[i]; } else { assert b[i - |a|] == (a + b)[i]; }
    }
  }

  lemma EndCommits(check: bool, seen: Seen, k: Kind, reason: Reason, late: bool)
    requires InOrder(check, seen) && (k.ReserveDone? ==> seen.decision.Some?)
    requires k.DecisionDone? ==> k.bid != Some(true) && seen.decision.None?
    ensures Commits(EndRecord(seen, k, reason, late)) ==> seen.decision == Some(Some(true))
  {
    var after := AtEnd(seen, k);
    var won := if k.LeaseCreated? && reason.LeaseWon? then [Won(k.lease)] else [];
    var end := Closing(after.reserve == Some(true), InFlight(after) && late, ToClose(after, reason), reason.LeaseWon?);
    CommitsJoin(Record(after) + won, end);
    CommitsJoin(Record(after), won);
    RecordCommits(after);
    ClosingCommits(after.reserve == Some(true), InFlight(after) && late, ToClose(after, reason), reason.LeaseWon?);
  }

  /** In every run, no reservation is granted to it and no bid sent before the decision to bid was received. */
  lemma {:induction false} NoCommitmentBeforeDecision(cfg: Config, check: bool, es: seq<Event>)
    ensures Commits(Run(cfg, Init(check), es).log) ==> Results(cfg, check, es).decision == Some(Some(true))
  {
    if es != [] {
      var front, e := es[..|es| - 1], es[|es| - 1];
      var s, seen := Run(cfg, Init(check), front), Results(cfg, check, front);
      NoCommitmentBeforeDecision(cfg, check, front);
      if Enabled(s, e.kind) {
        RunMeans(cfg, check, front);
        StepFollows(cfg, check, s, seen, e);
        var end := Ends(cfg, Group(seen), e.kind);
        if end.None? {
          RecordCommits(See(seen, e.kind));
        } else {
          EndCommits(check, seen, e.kind, end.value, e.late);
        }
      }
    }
  }

  /** In every run the decision to bid adds nothing to the record and leaves a reservation in flight, and any other
      decision ends the run, with no reservation granted to it and no bid sent. */
  lemma {:induction false} DecisionDecides(cfg: Config, check: bool, es: seq<Event>, bid: Option<bool>, late: bool)
    requires Enabled(Run(cfg, Init(check), es), DecisionDone(bid))
    ensures var s, t := Run(cfg, Init(check), es), Run(cfg, Init(check), es + [Event(DecisionDone(bid), late)]);
            if bid == Some(true) then
              t.exit.None? && t.log == s.log && forall ok: bool :: Enabled(t, ReserveDone(ok))
            else
              t.exit == Some(if bid.None? then DecisionFailed else Declined) && !Commits(t.log)
  {
    var e := Event(DecisionDone(bid), late);
    var s, seen := Run(cfg, Init(check), es), Results(cfg, check, es);
    RunMeans(cfg, check, es);
    RunOneMore(cfg, check, es, e);
    StepFollows(cfg, check, s, seen, e);
    if bid != Some(true) {
      EndCommits(check, seen, e.kind, if bid.None? then DecisionFailed else Declined, late);
    }
  }
}
