/** One order's bidding protocol as a state machine: fetch the group, decide, reserve, price, bid, then wait for the
    order's fate and clean up.  Every statement about runs below holds for every sequence of events. */
module OrderLoop {
  import opened Market

  datatype Price = Price(denom: string, amount: int)

  /** The order, this provider's address, and the provider record's text form, which bid-closed events are compared
      with. */
  datatype Config = Config(order: OrderID, address: string, providerText: string, timeoutEnabled: bool)

  datatype Reason =
    | Shutdown
    | QueryFailed
    | BidNotOpen
    | BidStale
    | LeaseLost
    | LeaseWon
    | OrderClosed
    | BidClosed
    | GroupFailed
    | DecisionFailed
    | Declined
    | ReserveFailed
    | PricingFailed
    | WrongDenom
    | PriceTooHigh
    | BidFailed
    | TimedOut

  /** What a run did or learned, in order: `Granted` is a reservation the cluster made for the order; `Unreserve`,
      `CloseBid` and the lease of `Won` handed to the bus are attempts, whatever came of them. */
  datatype Action =
    | FoundOpenBid
    | GroupFetched(max: Price)
    | Granted
    | CreateBid(price: Price)
    | BidLanded
    | Won(lease: LeaseID)
    | Unreserve
    | CloseBid

  /** The loop's channels: whether each has a result to come.  `storedGroup` holds the group's back while an existing
      bid is looked up. */
  datatype Channels = Channels(
    query: bool,
    storedGroup: bool,
    group: bool,
    decision: bool,
    cluster: bool,
    price: bool,
    bid: bool,
    timeout: bool)

  /** What happened before: an open bid found, the bid sent, the bid landed. */
  datatype Past = Past(found: bool, sent: Option<Price>, landed: bool)

  datatype State = State(
    ch: Channels,
    group: Option<Price>,
    reserved: bool,
    bidPlaced: bool,
    won: bool,
    exit: Option<Reason>,
    past: Past,
    log: seq<Action>)

  /** A result or event, with `late`: whether a reservation still in flight, should the loop end now, turns out
      granted. */
  datatype Event = Event(kind: Kind, late: bool)

  datatype Kind =
    | ShutdownRequest
    | BidNotFound
    | QueryError
    | BidFound(open: bool, stale: bool)
    | LeaseCreated(lease: LeaseID)
    | OrderCloses(order: OrderID)
    | BidCloses(group: GroupID, provider: string)
    | GroupDone(max: Option<Price>)
    | DecisionDone(bid: Option<bool>)
    | ReserveDone(ok: bool)
    | PriceDone(price: Option<Price>)
    | BidDone(ok: bool)
    | TimeoutFires

  const NO_CHANNEL := Channels(false, false, false, false, false, false, false, false)

  function Init(check: bool): State {
    State(if check then NO_CHANNEL.(query := true, storedGroup := true) else NO_CHANNEL.(group := true),
          None, false, false, false, None, Past(false, None, false), [])
  }

  function Record(s: State, a: Action): State {
    s.(log := s.log + [a])
  }

  // ---- Leaving the loop ----

  /** Waits for a reservation in flight. */
  function AwaitReservation(s: State, late: bool): State {
    if s.ch.cluster && late then Record(s, Granted).(reserved := true, ch := s.ch.(cluster := false))
    else s.(ch := s.ch.(cluster := false))
  }

  function Release(s: State): State {
    if s.reserved then Record(s, Unreserve) else s
  }

  function Withdraw(s: State): State {
    if s.bidPlaced then Record(s, CloseBid) else s
  }

  function Leave(s: State, r: Reason, late: bool): State {
    var t := AwaitReservation(s.(exit := Some(r)), late);
    if s.won then t else Withdraw(Release(t))
  }

  // ---- The cases of the loop ----

  /** Takes an existing bid for its own. */
  function Adopt(s: State): State {
    Record(s, FoundOpenBid).(bidPlaced := true, past := s.past.(found := true))
  }

  /** Lets the loop read the group's details. */
  function ShowGroup(ch: Channels): Channels {
    ch.(group := ch.storedGroup, storedGroup := false)
  }

  function OnBidFound(cfg: Config, s: State, open: bool, stale: bool, late: bool): State {
    if !open then Leave(s, BidNotOpen, late)
    else
      var t := Adopt(s);
      if stale && cfg.timeoutEnabled then Leave(t, BidStale, late)
      else t.(ch := ShowGroup(t.ch.(timeout := cfg.timeoutEnabled)))
  }

  function OnLeaseCreated(cfg: Config, s: State, lease: LeaseID, late: bool): State {
    if lease.Group() != cfg.order.group then s
    else if lease.provider != cfg.address then Leave(s.(bidPlaced := s.bidPlaced || s.ch.bid), LeaseLost, late)
    else Leave(Record(s, Won(lease)).(won := true), LeaseWon, late)
  }

  function OnBidCloses(cfg: Config, s: State, group: GroupID, provider: string, late: bool): State {
    if s.won || group != cfg.order.group || provider != cfg.providerText then s
    else Leave(s.(bidPlaced := false), BidClosed, late)
  }

  function OnGroup(s: State, max: Option<Price>, late: bool): State {
    var t := s.(ch := s.ch.(group := false));
    if max.None? then Leave(t, GroupFailed, late)
    else Record(t, GroupFetched(max.value)).(group := max, ch := t.ch.(decision := true))
  }

  function OnDecision(s: State, bid: Option<bool>, late: bool): State {
    var t := s.(ch := s.ch.(decision := false));
    if bid.None? then Leave(t, DecisionFailed, late)
    else if !bid.value then Leave(t, Declined, late)
    else t.(ch := t.ch.(cluster := true))
  }

  function OnReserve(s: State, ok: bool, late: bool): State {
    var t := s.(ch := s.ch.(cluster := false));
    if !ok then Leave(t, ReserveFailed, late)
    else
      var u := Record(t, Granted).(reserved := true);
      if u.bidPlaced then u else u.(ch := u.ch.(price := true))
  }

  function OnPrice(s: State, price: Option<Price>, late: bool): State
    requires s.group.Some?
  {
    var t := s.(ch := s.ch.(price := false));
    if price.None? then Leave(t, PricingFailed, late)
    else if s.group.value.denom != price.value.denom then Leave(t, WrongDenom, late)
    else if s.group.value.amount < price.value.amount then Leave(t, PriceTooHigh, late)
    else Record(t, CreateBid(price.value)).(ch := t.ch.(bid := true), past := t.past.(sent := price))
  }

  function OnBid(cfg: Config, s: State, ok: bool, late: bool): State {
    var t := s.(ch := s.ch.(bid := false));
    if !ok then Leave(t, BidFailed, late)
    else
      Record(t, BidLanded).(bidPlaced := true, ch := t.ch.(timeout := cfg.timeoutEnabled),
                            past := t.past.(landed := true))
  }

  /** The loop runs and the event's channel has a result; a price comes only for a fetched group. */
  predicate Enabled(s: State, k: Kind) {
    && s.exit.None?
    && match k
       case BidNotFound => s.ch.query
       case QueryError => s.ch.query
       case BidFound(_, _) => s.ch.query
       case GroupDone(_) => s.ch.group
       case DecisionDone(_) => s.ch.decision
       case ReserveDone(_) => s.ch.cluster
       case PriceDone(_) => s.ch.price && s.group.Some?
       case BidDone(_) => s.ch.bid
       case TimeoutFires => s.ch.timeout
       case _ => true
  }

  function Step(cfg: Config, s: State, e: Event): State {
    if !Enabled(s, e.kind) then s
    else match e.kind
      case ShutdownRequest => Leave(s, Shutdown, e.late)
      case BidNotFound => s.(ch := ShowGroup(s.ch.(query := false)))
      case QueryError => Leave(s.(ch := s.ch.(query := false)), QueryFailed, e.late)
      case BidFound(open, stale) => OnBidFound(cfg, s.(ch := s.ch.(query := false)), open, stale, e.late)
      case LeaseCreated(lease) => OnLeaseCreated(cfg, s, lease, e.late)
      case OrderCloses(order) => if order == cfg.order then Leave(s, OrderClosed, e.late) else s
      case BidCloses(group, provider) => OnBidCloses(cfg, s, group, provider, e.late)
      case GroupDone(max) => OnGroup(s, max, e.late)
      case DecisionDone(bid) => OnDecision(s, bid, e.late)
      case ReserveDone(ok) => OnReserve(s, ok, e.late)
      case PriceDone(price) => OnPrice(s, price, e.late)
      case BidDone(ok) => OnBid(cfg, s, ok, e.late)
      case TimeoutFires => Leave(s.(ch := s.ch.(timeout := false)), TimedOut, e.late)
  }

  function Run(cfg: Config, s: State, es: seq<Event>): State {
    if es == [] then s else Step(cfg, Run(cfg, s, es[..|es| - 1]), es[|es| - 1])
  }

  // ---- What the log looks like ----

  function If(b: bool, a: Action): seq<Action> {
    if b then [a] else []
  }

  function GroupPart(max: Option<Price>): seq<Action> {
    if max.Some? then [GroupFetched(max.value)] else []
  }

  function BidPart(sent: Option<Price>): seq<Action> {
    if sent.Some? then [CreateBid(sent.value)] else []
  }

  /** The log of a run still in its loop. */
  function LogSoFar(s: State): seq<Action> {
    If(s.past.found, FoundOpenBid)
    + GroupPart(s.group)
    + If(s.reserved, Granted)
    + BidPart(s.past.sent)
    + If(s.past.landed, BidLanded)
  }

  /** One step of the protocol is outstanding at a time, and each comes after the ones before it. */
  ghost predicate Ordered(s: State) {
    && (s.ch.query || s.ch.storedGroup || s.ch.group ==> s.group.None? && !s.ch.decision)
    && (s.ch.query || s.ch.storedGroup ==> !s.ch.group)
    && (s.ch.query ==> !s.past.found)
    && (s.ch.decision ==> s.group.Some? && !s.ch.cluster)
    && (s.ch.decision || s.ch.cluster || s.group.None? ==> !s.reserved)
    && (s.ch.cluster ==> s.group.Some?)
    && (s.ch.price ==> s.reserved && !s.past.found && s.past.sent.None?)
    && (s.past.landed ==> s.past.sent.Some?)
    && (s.past.sent.Some? ==> s.reserved && !s.past.found && BidAllowed(s.group, s.past.sent.value))
  }

  /** In the order's denomination and not above its maximum. */
  predicate BidAllowed(max: Option<Price>, p: Price) {
    max.Some? && p.denom == max.value.denom && p.amount <= max.value.amount
  }

  ghost predicate InLoop(s: State) {
    && Ordered(s)
    && !s.won
    && s.bidPlaced == (s.past.found || s.past.landed)
    && (s.ch.bid <==> s.past.sent.Some? && !s.past.landed)
    && s.log == LogSoFar(s)
  }

  /** A run over without winning: whatever was granted is given back, and a bid recorded as placed is closed. */
  ghost predicate Lost(s: State) {
    && Ordered(s)
    && s.log == LogSoFar(s) + If(s.reserved, Unreserve) + If(s.bidPlaced, CloseBid)
    && s.bidPlaced == PlacedAtExit(s)
    && s.exit != Some(LeaseWon)
  }

  /** A bid found or landed, and not reported closed; or one in flight when the lease went to someone else. */
  ghost predicate PlacedAtExit(s: State) {
    || (s.exit != Some(BidClosed) && (s.past.found || s.past.landed))
    || (s.exit == Some(LeaseLost) && s.past.sent.Some?)
  }

  /** A run over by winning: the lease is handed to the bus, and nothing after it but the grant of a reservation in
      flight. */
  ghost predicate Victory(cfg: Config, s: State) {
    && s.exit == Some(LeaseWon)
    && exists t: State, lease: LeaseID, late: bool ::
         Ordered(t) && Ours(cfg, lease) && s.log == VictoryLog(t, lease, late)
  }

  /** A lease of the order's group with this provider. */
  predicate Ours(cfg: Config, lease: LeaseID) {
    lease.Group() == cfg.order.group && lease.provider == cfg.address
  }

  function VictoryLog(t: State, lease: LeaseID, late: bool): seq<Action> {
    LogSoFar(t) + [Won(lease)] + If(late, Granted)
  }

  ghost predicate Inv(cfg: Config, s: State) {
    if s.exit.None? then InLoop(s)
    else if s.won then Victory(cfg, s)
    else Lost(s)
  }

  // ---- Each step keeps the shape ----

  /** Leaving without winning, from a state in its loop but for `bidPlaced` and the channel just read. */
  lemma LeaveLost(cfg: Config, s: State, r: Reason, late: bool)
    requires Ordered(s) && !s.won && s.log == LogSoFar(s) && r != LeaseWon
    requires s.bidPlaced == PlacedAtExit(s.(exit := Some(r)))
    ensures Inv(cfg, Leave(s, r, late))
  {}

  lemma LeaveWon(cfg: Config, s: State, lease: LeaseID, late: bool)
    requires InLoop(s) && Ours(cfg, lease)
    ensures Inv(cfg, Leave(Record(s, Won(lease)).(won := true), LeaseWon, late))
  {
    var t := Leave(Record(s, Won(lease)).(won := true), LeaseWon, late);
    assert t.log == VictoryLog(s, lease, s.ch.cluster && late);
  }

  lemma BidFoundKeeps(cfg: Config, s: State, open: bool, stale: bool, late: bool)
    requires InLoop(s) && s.ch.query && s.exit.None?
    ensures Inv(cfg, OnBidFound(cfg, s.(ch := s.ch.(query := false)), open, stale, late))
  {}

  lemma LeaseKeeps(cfg: Config, s: State, lease: LeaseID, late: bool)
    requires InLoop(s) && s.exit.None?
    ensures Inv(cfg, OnLeaseCreated(cfg, s, lease, late))
  {
    if lease.Group() == cfg.order.group {
      if lease.provider != cfg.address {
        LeaveLost(cfg, s.(bidPlaced := s.bidPlaced || s.ch.bid), LeaseLost, late);
      } else {
        LeaveWon(cfg, s, lease, late);
      }
    }
  }

  lemma BidClosesKeeps(cfg: Config, s: State, group: GroupID, provider: string, late: bool)
    requires InLoop(s) && s.exit.None?
    ensures Inv(cfg, OnBidCloses(cfg, s, group, provider, late))
  {
    if group == cfg.order.group && provider == cfg.providerText {
      LeaveLost(cfg, s.(bidPlaced := false), BidClosed, late);
    }
  }

  lemma GroupKeeps(cfg: Config, s: State, max: Option<Price>, late: bool)
    requires InLoop(s) && s.ch.group && s.exit.None?
    ensures Inv(cfg, OnGroup(s, max, late))
  {}

  lemma DecisionKeeps(cfg: Config, s: State, bid: Option<bool>, late: bool)
    requires InLoop(s) && s.ch.decision && s.exit.None?
    ensures Inv(cfg, OnDecision(s, bid, late))
  {
    var t := s.(ch := s.ch.(decision := false));
    if bid.None? { LeaveLost(cfg, t, DecisionFailed, late); } else if !bid.value { LeaveLost(cfg, t, Declined, late); }
  }

  lemma ReserveKeeps(cfg: Config, s: State, ok: bool, late: bool)
    requires InLoop(s) && s.ch.cluster && s.exit.None?
    ensures Inv(cfg, OnReserve(s, ok, late))
  {}

  lemma PriceKeeps(cfg: Config, s: State, price: Option<Price>, late: bool)
    requires InLoop(s) && s.ch.price && s.group.Some? && s.exit.None?
    ensures Inv(cfg, OnPrice(s, price, late))
  {
    var t := s.(ch := s.ch.(price := false));
    if price.None? {
      LeaveLost(cfg, t, PricingFailed, late);
    } else if s.group.value.denom != price.value.denom {
      LeaveLost(cfg, t, WrongDenom, late);
    } else if s.group.value.amount < price.value.amount {
      LeaveLost(cfg, t, PriceTooHigh, late);
    }
  }

  lemma BidKeeps(cfg: Config, s: State, ok: bool, late: bool)
    requires InLoop(s) && s.ch.bid && s.exit.None?
    ensures Inv(cfg, OnBid(cfg, s, ok, late))
  {}

  lemma StepKeeps(cfg: Config, s: State, e: Event)
    requires Inv(cfg, s)
    ensures Inv(cfg, Step(cfg, s, e))
  {
    if Enabled(s, e.kind) {
      match e.kind
      case ShutdownRequest => LeaveLost(cfg, s, Shutdown, e.late);
      case BidNotFound =>
      case QueryError => LeaveLost(cfg, s.(ch := s.ch.(query := false)), QueryFailed, e.late);
      case BidFound(open, stale) => BidFoundKeeps(cfg, s, open, stale, e.late);
      case LeaseCreated(lease) => LeaseKeeps(cfg, s, lease, e.late);
      case OrderCloses(order) => if order == cfg.order { LeaveLost(cfg, s, OrderClosed, e.late); }
      case BidCloses(group, provider) => BidClosesKeeps(cfg, s, group, provider, e.late);
      case GroupDone(max) => GroupKeeps(cfg, s, max, e.late);
      case DecisionDone(bid) => DecisionKeeps(cfg, s, bid, e.late);
      case ReserveDone(ok) => ReserveKeeps(cfg, s, ok, e.late);
      case PriceDone(price) => PriceKeeps(cfg, s, price, e.late);
      case BidDone(ok) => BidKeeps(cfg, s, ok, e.late);
      case TimeoutFires => LeaveLost(cfg, s.(ch := s.ch.(timeout := false)), TimedOut, e.late);
    }
  }

  lemma {:induction false} RunKeeps(cfg: Config, s: State, es: seq<Event>)
    requires Inv(cfg, s)
    ensures Inv(cfg, Run(cfg, s, es))
  {
    if es != [] {
      RunKeeps(cfg, s, es[..|es| - 1]);
      StepKeeps(cfg, Run(cfg, s, es[..|es| - 1]), es[|es| - 1]);
    }
  }

  /** A state some run reaches, and with it everything below about runs. */
  ghost predicate Reachable(cfg: Config, s: State) {
    exists check: bool, es: seq<Event> :: s == Run(cfg, Init(check), es)
  }

  lemma ReachableStep(cfg: Config, s: State, e: Event)
    requires Reachable(cfg, s)
    ensures Reachable(cfg, Step(cfg, s, e))
  {
    var check, es :| s == Run(cfg, Init(check), es);
    assert (es + [e])[..|es|] == es;
    assert Step(cfg, s, e) == Run(cfg, Init(check), es + [e]);
  }

  lemma ReachableInv(cfg: Config, s: State)
    requires Reachable(cfg, s)
    ensures Inv(cfg, s)
  {
    var check, es :| s == Run(cfg, Init(check), es);
    RunKeeps(cfg, Init(check), es);
  }

  /** A price to come is for a fetched group: the group the loop then reads is never missing, and `Enabled` asks no more
      of a price than of any other result. */
  lemma PriceHasGroup(cfg: Config, s: State)
    requires Reachable(cfg, s) && s.exit.None? && s.ch.price
    ensures s.group.Some? && s.reserved && !s.bidPlaced
  {
    ReachableInv(cfg, s);
  }

  // ---- Theorems about every run ----

  /** The rules of bidding, in terms of what happened alone: one bid at most, after a grant not yet given back, at a
      price the fetched group allows, and none where an open bid was found. */
  ghost predicate BidRules(log: seq<Action>) {
    && (forall i, j | 0 <= i < j < |log| :: !(log[i].CreateBid? && log[j].CreateBid?))
    && (forall i | 0 <= i < |log| && log[i].CreateBid? :: BidRule(log, i))
  }

  ghost predicate BidRule(log: seq<Action>, i: nat)
    requires i < |log| && log[i].CreateBid?
  {
    && Granted in log[..i] && Unreserve !in log[..i] && FoundOpenBid !in log
    && exists max: Price :: GroupFetched(max) in log[..i] && BidAllowed(Some(max), log[i].price)
  }

  ghost predicate NoBids(log: seq<Action>) {
    FoundOpenBid !in log && forall i | 0 <= i < |log| :: !log[i].CreateBid?
  }

  lemma LogSoFarRules(s: State)
    requires Ordered(s)
    ensures BidRules(LogSoFar(s))
  {
    var log := LogSoFar(s);
    if s.past.sent.Some? {
      assert log[..2] == [GroupFetched(s.group.value), Granted] && log[2] == CreateBid(s.past.sent.value);
      assert GroupFetched(s.group.value) in log[..2];
      assert BidRule(log, 2);
    }
  }

  lemma RulesExtend(log: seq<Action>, tail: seq<Action>)
    requires BidRules(log) && NoBids(tail)
    ensures BidRules(log + tail)
  {
    var all := log + tail;
    forall i | 0 <= i < |all| && all[i].CreateBid? ensures BidRule(all, i) {
      assert i < |log|;
      assert all[..i] == log[..i];
      assert BidRule(log, i);
    }
  }

  ghost predicate InSoFar(s: State, a: Action) {
    match a
    case FoundOpenBid => s.past.found
    case GroupFetched(max) => s.group == Some(max)
    case Granted => s.reserved
    case CreateBid(p) => s.past.sent == Some(p)
    case BidLanded => s.past.landed
    case _ => false
  }

  lemma ThreeCount(a: seq<Action>, b: seq<Action>, c: seq<Action>, x: Action)
    ensures multiset(a + b + c)[x] == multiset(a)[x] + multiset(b)[x] + multiset(c)[x]
  {}

  lemma FiveCount(a: seq<Action>, b: seq<Action>, c: seq<Action>, d: seq<Action>, e: seq<Action>, x: Action)
    ensures multiset(a + b + c + d + e)[x]
         == multiset(a)[x] + multiset(b)[x] + multiset(c)[x] + multiset(d)[x] + multiset(e)[x]
  {}

  lemma IfCount(b: bool, a: Action, x: Action)
    ensures multiset(If(b, a))[x] == if b && a == x then 1 else 0
  {}

  lemma PartCount(max: Option<Price>, sent: Option<Price>, x: Action)
    ensures multiset(GroupPart(max))[x] == if x.GroupFetched? && max == Some(x.max) then 1 else 0
    ensures multiset(BidPart(sent))[x] == if x.CreateBid? && sent == Some(x.price) then 1 else 0
  {}

  lemma SoFarCount(s: State, x: Action)
    ensures multiset(LogSoFar(s))[x] == if InSoFar(s, x) then 1 else 0
  {
    FiveCount(If(s.past.found, FoundOpenBid), GroupPart(s.group), If(s.reserved, Granted), BidPart(s.past.sent),
              If(s.past.landed, BidLanded), x);
    IfCount(s.past.found, FoundOpenBid, x);
    IfCount(s.reserved, Granted, x);
    IfCount(s.past.landed, BidLanded, x);
    PartCount(s.group, s.past.sent, x);
  }

  lemma LostCount(s: State, x: Action)
    requires s.log == LogSoFar(s) + If(s.reserved, Unreserve) + If(s.bidPlaced, CloseBid)
    ensures multiset(s.log)[x] == if InSoFar(s, x) || (s.reserved && x.Unreserve?) || (s.bidPlaced && x.CloseBid?)
                                  then 1 else 0
  {
    SoFarCount(s, x);
    ThreeCount(LogSoFar(s), If(s.reserved, Unreserve), If(s.bidPlaced, CloseBid), x);
    IfCount(s.reserved, Unreserve, x);
    IfCount(s.bidPlaced, CloseBid, x);
  }

  lemma LostHas(s: State, x: Action)
    requires Lost(s)
    ensures x in s.log <==> InSoFar(s, x) || (s.reserved && x.Unreserve?) || (s.bidPlaced && x.CloseBid?)
  {
    LostCount(s, x);
    InIsCounted(s.log, x);
  }

  lemma VictoryRules(t: State, lease: LeaseID, late: bool)
    requires Ordered(t)
    ensures BidRules(VictoryLog(t, lease, late))
  {
    var tail := [Won(lease)] + If(late, Granted);
    LogSoFarRules(t);
    RulesExtend(LogSoFar(t), tail);
    assert VictoryLog(t, lease, late) == LogSoFar(t) + tail;
  }

  lemma LostRules(s: State)
    requires Lost(s)
    ensures BidRules(s.log)
  {
    var tail := If(s.reserved, Unreserve) + If(s.bidPlaced, CloseBid);
    LogSoFarRules(s);
    RulesExtend(LogSoFar(s), tail);
    assert s.log == LogSoFar(s) + tail;
  }

  /** In every run, at every moment, the rules of bidding hold. */
  lemma {:induction false} BidsByTheRules(cfg: Config, check: bool, es: seq<Event>)
    ensures BidRules(Run(cfg, Init(check), es).log)
  {
    RunKeeps(cfg, Init(check), es);
    InvRules(cfg, Run(cfg, Init(check), es));
  }

  lemma InvRules(cfg: Config, s: State)
    requires Inv(cfg, s)
    ensures BidRules(s.log)
  {
    if s.exit.None? {
      LogSoFarRules(s);
    } else if s.won {
      var t: State, lease: LeaseID, late: bool :|
        Ordered(t) && Ours(cfg, lease) && s.log == VictoryLog(t, lease, late);
      VictoryRules(t, lease, late);
    } else {
      LostRules(s);
    }
  }

  lemma LostReleases(s: State)
    requires Lost(s)
    ensures multiset(s.log)[Unreserve] == multiset(s.log)[Granted] <= 1
  {
    LostCount(s, Unreserve);
    LostCount(s, Granted);
  }

  /** Every run that ends without winning gives back exactly what the cluster granted it, a reservation in flight at
      the end included. */
  lemma {:induction false} LosingReleases(cfg: Config, check: bool, es: seq<Event>)
    requires var s := Run(cfg, Init(check), es); s.exit.Some? && !s.won
    ensures var log := multiset(Run(cfg, Init(check), es).log); log[Unreserve] == log[Granted] <= 1
  {
    RunKeeps(cfg, Init(check), es);
    LostReleases(Run(cfg, Init(check), es));
  }

  lemma LostCloses(s: State)
    requires Lost(s)
    ensures multiset(s.log)[CloseBid] == if PlacedAtExit(s) then 1 else 0
  {
    LostCount(s, CloseBid);
  }

  lemma LostFound(s: State)
    requires Lost(s)
    ensures FoundOpenBid in s.log <==> s.past.found
  {
    LostHas(s, FoundOpenBid);
  }

  lemma LostLanded(s: State)
    requires Lost(s)
    ensures BidLanded in s.log <==> s.past.landed
  {
    LostHas(s, BidLanded);
  }

  lemma LostSent(s: State, p: Price)
    requires Lost(s)
    ensures CreateBid(p) in s.log <==> s.past.sent == Some(p)
  {
    LostHas(s, CreateBid(p));
  }

  /** A run that ends without winning closes its bid, once, exactly when: an open bid was found or the bid landed, and
      it was not reported closed; or a bid was sent and the lease went to another provider. */
  lemma {:induction false} LosingCloses(cfg: Config, check: bool, es: seq<Event>)
    requires var s := Run(cfg, Init(check), es); s.exit.Some? && !s.won
    ensures var s := Run(cfg, Init(check), es);
            multiset(s.log)[CloseBid] ==
            if || (s.exit != Some(BidClosed) && (FoundOpenBid in s.log || BidLanded in s.log))
               || (s.exit == Some(LeaseLost) && exists p: Price :: CreateBid(p) in s.log)
            then 1 else 0
  {
    RunKeeps(cfg, Init(check), es);
    var s := Run(cfg, Init(check), es);
    forall p: Price ensures CreateBid(p) in s.log <==> s.past.sent == Some(p) {
      LostSent(s, p);
    }
    LostFound(s);
    LostLanded(s);
    LostCloses(s);
    if s.past.sent.Some? {
      assert CreateBid(s.past.sent.value) in s.log;
    }
  }

  /** So a bid sent and never seen to land is left open, if it lands, in exactly these runs: those that end for another
      reason than a lost lease. */
  lemma {:induction false} BidInFlightAtExit(cfg: Config, check: bool, es: seq<Event>, p: Price)
    requires var s := Run(cfg, Init(check), es); s.exit.Some? && !s.won
    requires var s := Run(cfg, Init(check), es); CreateBid(p) in s.log && BidLanded !in s.log
    ensures var s := Run(cfg, Init(check), es); CloseBid in s.log <==> s.exit == Some(LeaseLost)
  {
    RunKeeps(cfg, Init(check), es);
    var s := Run(cfg, Init(check), es);
    LostSent(s, p);
    LostLanded(s);
    LostHas(s, CloseBid);
  }

  lemma InIsCounted(log: seq<Action>, x: Action)
    ensures x in log <==> multiset(log)[x] > 0
  {}

  lemma VictoryHas(t: State, lease: LeaseID, late: bool)
    ensures var log := VictoryLog(t, lease, late); Won(lease) in log && Unreserve !in log && CloseBid !in log
  {}

  lemma WonLog(cfg: Config, s: State) returns (lease: LeaseID)
    requires Victory(cfg, s)
    ensures Ours(cfg, lease) && Won(lease) in s.log && Unreserve !in s.log && CloseBid !in s.log
  {
    var t: State, l: LeaseID, late: bool :| Ordered(t) && Ours(cfg, l) && s.log == VictoryLog(t, l, late);
    lease := l;
    VictoryHas(t, l, late);
  }

  /** A run that wins hands the bus a lease of the order's group with this provider, and neither gives back its
      reservation nor closes its bid. */
  lemma {:induction false} WinningKeeps(cfg: Config, check: bool, es: seq<Event>)
    requires Run(cfg, Init(check), es).won
    ensures var log := Run(cfg, Init(check), es).log;
            && Unreserve !in log && CloseBid !in log
            && exists lease: LeaseID :: Won(lease) in log && Ours(cfg, lease)
  {
    RunKeeps(cfg, Init(check), es);
    var lease := WonLog(cfg, Run(cfg, Init(check), es));
  }
}
