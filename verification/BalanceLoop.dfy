/** The balance checker's event loop as a state machine: funds checks per lease, feeding a withdrawal
    queue.  Every statement about runs below holds for every sequence of events.

    A lease state is identified by its `Monitor`: the lease it was made for and a serial number that tells
    apart the states of a lease removed and added again.  It stands for the reference the source shares
    between the lease map, the two queues and the transaction in flight. */
module BalanceLoop {
  import opened Market
  import opened WithdrawQueue

  /** A lease ID, which the checker only compares. */
  type LeaseKey(==, !new)

  type TimerID = nat

  const RETRY_CHECK_AFTER: int := 60

  datatype Monitor = Monitor(lid: LeaseKey, serial: nat)

  datatype LeaseState = LeaseState(
    tm: Option<TimerID>,
    scheduledWithdrawAt: Option<int>,
    closed: bool,
    withdrawing: bool,
    retryWithdraw: bool)

  /** A funds check, armed on a timer or running. */
  datatype Check = Check(lid: LeaseKey, scheduledWithdraw: bool, after: int)

  /** What a funds check found. */
  datatype Outcome =
    | Failed
    | LeaseGone(reason: ClosedReason)
    | OutOfFunds(checkAfter: int)
    | Funded(checkAfter: int)

  datatype TxResult = TxOk | PaymentClosed | AccountClosed | TxError

  predicate IsEscrowClosed(err: TxResult) {
    err.PaymentClosed? || err.AccountClosed?
  }

  /** One externally visible thing the loop does. */
  datatype Action =
    | Publish(m: Monitor, reason: ClosedReason, ok: bool)
    | Arm(m: Monitor)
    | Queue(m: Monitor)
    | Send(items: seq<Monitor>)

  ghost predicate Concerns(a: Action, m: Monitor) {
    if a.Send? then m in a.items else a.m == m
  }

  /** The loop's variables, with what its environment holds (armed timers, running checks, the transaction
      in flight) and a record of what it did. */
  datatype State = State(
    period: int,
    leases: map<LeaseKey, Monitor>,
    states: map<Monitor, LeaseState>,
    nextSerial: nat,
    due: seq<Monitor>,
    alone: seq<Monitor>,
    inFlight: seq<Monitor>,
    cancelled: bool,
    armed: map<TimerID, Check>,
    running: multiset<Check>,
    nextTimer: TimerID,
    txs: map<Monitor, nat>,
    log: seq<Action>)

  datatype Event =
    | AddMonitor(lid: LeaseKey, isNew: bool, now: int, firstIn: int, checkIn: int)
    | RemoveMonitor(lid: LeaseKey)
    | TimerFires(t: TimerID)
    | CheckDone(check: Check, outcome: Outcome, published: bool, now: int)
    | WithdrawDone(result: TxResult, published: bool)
    | ContextEnds
    | CheckDropped(check: Check)

  function Init(period: int): State {
    State(period, map[], map[], 0, [], [], [], false, map[], multiset{}, 0, map[], [])
  }

  /** The state of a lease's current monitor exists and is not reported closed. */
  predicate Watching(s: State, lid: LeaseKey) {
    lid in s.leases && s.leases[lid] in s.states && !s.states[s.leases[lid]].closed
  }

  /** The monitors `sendWithdrawals` keeps: current, and not reported closed. */
  function Live(s: State): set<Monitor> {
    set m | m in s.states && IsLive(s, m)
  }

  predicate IsLive(s: State, m: Monitor)
    requires m in s.states
  {
    m.lid in s.leases && s.leases[m.lid] == m && !s.states[m].closed
  }

  function WithState(s: State, m: Monitor, l: LeaseState): State {
    s.(states := s.states[m := l])
  }

  function ArmTimer(s: State, m: Monitor, check: Check): State
    requires m in s.states
  {
    WithState(s, m, s.states[m].(tm := Some(s.nextTimer))).(
       armed := s.armed[s.nextTimer := check],
       nextTimer := s.nextTimer + 1,
       log := s.log + [Arm(m)])
  }

  function PublishClosure(s: State, m: Monitor, reason: ClosedReason, ok: bool): State
    requires m in s.states
  {
    WithState(s, m, s.states[m].(closed := s.states[m].closed || ok)).(log := s.log + [Publish(m, reason, ok)])
  }

  /** Counts one more transaction for the withdrawals it holds. */
  function Bumped(txs: map<Monitor, nat>, items: seq<Monitor>): map<Monitor, nat> {
    map m | m in txs :: if m in items then txs[m] + 1 else txs[m]
  }

  /** The picked withdrawals go out in one transaction, if there are any. */
  function Dispatched(s: State, p: Picked<Monitor>): State {
    if p.batch == [] then s.(alone := p.alone, due := p.due)
    else s.(alone := p.alone, due := p.due, inFlight := p.batch,
            txs := Bumped(s.txs, p.batch), log := s.log + [Send(p.batch)])
  }

  /** Sends the next transaction unless one is in flight or the context ended. */
  function SendWithdrawals(s: State): State {
    if s.inFlight != [] || s.cancelled then s else Dispatched(s, Pick(s.alone, s.due, Live(s)))
  }

  /** The new monitor, before its first check is set off. */
  function Registered(s: State, lid: LeaseKey, at: Option<int>): State {
    var m := Monitor(lid, s.nextSerial);
    s.(leases := s.leases[lid := m],
       states := s.states[m := LeaseState(None, at, false, false, false)],
       nextSerial := s.nextSerial + 1,
       txs := s.txs[m := 0])
  }

  /** When a new monitor's first withdrawal is due: a full period from now for a new lease, at a random point
      within the period (`firstIn`) for one found at start-up, never if withdrawals are off. */
  function FirstWithdrawal(period: int, isNew: bool, now: int, firstIn: int): Option<int> {
    if period > 0 then Some(now + if isNew then period else firstIn) else None
  }

  function StartCheck(s: State, check: Check): State {
    s.(running := s.running + multiset{check})
  }

  function OnAdd(s: State, lid: LeaseKey, isNew: bool, at: Option<int>, checkIn: int): State {
    if isNew then StartCheck(Registered(s, lid, at), Check(lid, false, 0))
    else ArmTimer(Registered(s, lid, at), Monitor(lid, s.nextSerial), Check(lid, false, checkIn))
  }

  function OnRemove(s: State, lid: LeaseKey): State {
    if lid !in s.leases || s.leases[lid] !in s.states then s
    else
      var tm := s.states[s.leases[lid]].tm;
      s.(leases := s.leases - {lid}, armed := if tm.Some? then s.armed - {tm.value} else s.armed)
  }

  function OnTimer(s: State, t: TimerID): State
    requires t in s.armed
  {
    s.(armed := s.armed - {t}, running := s.running + multiset{s.armed[t]})
  }

  /** The check that follows one that did not fail.  A pending scheduled withdrawal brings it forward. */
  function FollowUp(lid: LeaseKey, withdraw: bool, at: Option<int>, now: int, checkAfter: int): Check {
    if !withdraw && at.Some? && checkAfter >= at.value - now
    then Check(lid, true, at.value - now)
    else Check(lid, false, checkAfter)
  }

  /** The monitor's withdrawal joins the due ones. */
  function Queued(s: State, m: Monitor): State
    requires m in s.states
  {
    WithState(s, m, s.states[m].(withdrawing := true, retryWithdraw := false)).(
       due := s.due + [m],
       txs := s.txs[m := 0],
       log := s.log + [Queue(m)])
  }

  /** A check that did not fail asks for a withdrawal. */
  predicate WantsWithdraw(s: State, m: Monitor, check: Check, outcome: Outcome)
    requires m in s.states
  {
    s.period > 0 && (outcome.OutOfFunds? || check.scheduledWithdraw || s.states[m].retryWithdraw)
  }

  /** After a check that did not fail: the periodic withdrawal rescheduled, the next check armed. */
  function Rearmed(s: State, m: Monitor, check: Check, outcome: Outcome, now: int): State
    requires m in s.states && (outcome.OutOfFunds? || outcome.Funded?)
  {
    var withdraw := WantsWithdraw(s, m, check, outcome);
    var at := if withdraw then Some(now + s.period) else s.states[m].scheduledWithdrawAt;
    Rescheduled(s, m, at, FollowUp(check.lid, withdraw, at, now, outcome.checkAfter))
  }

  function Rescheduled(s: State, m: Monitor, at: Option<int>, check: Check): State
    requires m in s.states
  {
    ArmTimer(WithState(s, m, s.states[m].(scheduledWithdrawAt := at)), m, check)
  }

  /** A check's result for the current monitor of its lease, not reported closed. */
  function Handled(s: State, m: Monitor, check: Check, outcome: Outcome, published: bool, now: int): State
    requires m in s.states
  {
    match outcome
    case LeaseGone(reason) =>
      var t := PublishClosure(s, m, reason, published);
      if published then t else ArmTimer(t, m, Check(check.lid, check.scheduledWithdraw, RETRY_CHECK_AFTER))
    case Failed =>
      ArmTimer(s, m, Check(check.lid, check.scheduledWithdraw, RETRY_CHECK_AFTER))
    case _ =>
      var t := Rearmed(s, m, check, outcome, now);
      if WantsWithdraw(s, m, check, outcome) && !s.states[m].withdrawing
      then SendWithdrawals(Queued(t, m)) else t
  }

  function OnCheck(s: State, check: Check, outcome: Outcome, published: bool, now: int): State
    requires check in s.running
  {
    var t := s.(running := s.running - multiset{check});
    if Watching(s, check.lid) then Handled(t, s.leases[check.lid], check, outcome, published, now) else t
  }

  /** A lease state once the withdrawal from it alone failed.  `live` is whether it is still the state of
      its lease's monitor, not reported closed. */
  function AfterFailure(l: LeaseState, live: bool, err: TxResult, published: bool): LeaseState {
    l.(withdrawing := false,
       retryWithdraw := l.retryWithdraw || (live && !IsEscrowClosed(err)),
       closed := l.closed || (live && IsEscrowClosed(err) && published))
  }

  /** The given monitors are not being withdrawn from any more. */
  function Cleared(states: map<Monitor, LeaseState>, ms: seq<Monitor>): map<Monitor, LeaseState> {
    map m | m in states :: if m in ms then states[m].(withdrawing := false) else states[m]
  }

  /** The transaction in flight went through. */
  function Landed(s: State): State {
    s.(inFlight := [], states := Cleared(s.states, s.inFlight))
  }

  /** The transaction in flight, of several leases, failed: each is withdrawn from again alone. */
  function Requeued(s: State): State {
    s.(inFlight := [], alone := s.alone + s.inFlight)
  }

  /** The transaction in flight, of one lease, failed: a closed escrow is reported, anything else retried. */
  function Refused(s: State, m: Monitor, err: TxResult, published: bool): State
    requires m in s.states
  {
    WithState(s, m, AfterFailure(s.states[m], IsLive(s, m), err, published)).(
       inFlight := [],
       log := if IsLive(s, m) && IsEscrowClosed(err)
              then s.log + [Publish(m, if err.AccountClosed? then Owner else Unspecified, published)] else s.log)
  }

  /** The transaction in flight is over, one way or another. */
  function Concluded(s: State, result: TxResult, published: bool): State
    requires s.inFlight != [] && s.inFlight[0] in s.states
  {
    if result.TxOk? then Landed(s)
    else if |s.inFlight| > 1 then Requeued(s)
    else Refused(s, s.inFlight[0], result, published)
  }

  function OnWithdrawResult(s: State, result: TxResult, published: bool): State
    requires s.inFlight != [] && s.inFlight[0] in s.states
  {
    SendWithdrawals(Concluded(s, result, published))
  }

  /** The environment can deliver the event. */
  predicate Enabled(s: State, e: Event) {
    match e
    case TimerFires(t) => t in s.armed
    case CheckDone(check, _, _, _) => check in s.running
    case WithdrawDone(_, _) => s.inFlight != [] && s.inFlight[0] in s.states
    case CheckDropped(check) => s.cancelled && check in s.running
    case _ => true
  }

  function Step(s: State, e: Event): State {
    if !Enabled(s, e) then s
    else match e
      case AddMonitor(lid, isNew, now, firstIn, checkIn) =>
        OnAdd(s, lid, isNew, FirstWithdrawal(s.period, isNew, now, firstIn), checkIn)
      case RemoveMonitor(lid) => OnRemove(s, lid)
      case TimerFires(t) => OnTimer(s, t)
      case CheckDone(check, outcome, published, now) => OnCheck(s, check, outcome, published, now)
      case WithdrawDone(result, published) => OnWithdrawResult(s, result, published)
      case ContextEnds => s.(cancelled := true)
      case CheckDropped(check) => s.(running := s.running - multiset{check})
  }

  function Run(s: State, es: seq<Event>): State {
    if es == [] then s else Step(Run(s, es[..|es| - 1]), es[|es| - 1])
  }

  // ---- Invariants ----

  /** How often a monitor's withdrawal is queued or in flight. */
  ghost function Occurs(s: State, m: Monitor): nat {
    multiset(s.alone)[m] + multiset(s.due)[m] + multiset(s.inFlight)[m]
  }

  ghost predicate Tracked(s: State) {
    && (forall lid | lid in s.leases :: s.leases[lid].lid == lid && s.leases[lid] in s.states)
    && (forall m | m in s.states :: m.serial < s.nextSerial)
    && (forall t | t in s.armed :: t < s.nextTimer)
    && (forall m | m in s.states && s.states[m].tm.Some? ::
          s.states[m].tm.value < s.nextTimer
          && (s.states[m].tm.value in s.armed ==> s.armed[s.states[m].tm.value].lid == m.lid))
  }

  /** No withdrawal is duplicated or lost. */
  ghost predicate QueuesSound(s: State) {
    && (forall m :: Occurs(s, m) <= 1)
    && (forall m :: Occurs(s, m) == 1 ==> m in s.states && s.states[m].withdrawing)
    && (forall m | m in s.states && IsLive(s, m) && s.states[m].withdrawing :: Occurs(s, m) == 1)
  }

  /** A withdrawal is sent in at most two transactions: a batch, then one of its own. */
  ghost predicate SendsBounded(s: State) {
    && s.txs.Keys == s.states.Keys
    && (forall m | m in s.txs && m in s.due :: s.txs[m] == 0)
    && (forall m | m in s.txs && m in s.alone :: s.txs[m] == 1)
    && (forall m | m in s.txs && m in s.inFlight :: 1 <= s.txs[m] <= if |s.inFlight| > 1 then 1 else 2)
    && (forall m | m in s.txs :: s.txs[m] <= 2)
    && |s.inFlight| <= MAX_WITHDRAW_BATCH
  }

  /** Withdrawals wait only behind a transaction in flight. */
  ghost predicate NoneIdle(s: State) {
    s.inFlight == [] && !s.cancelled ==> s.due == [] && s.alone == []
  }

  ghost predicate CheckComing(s: State, lid: LeaseKey) {
    (exists t | t in s.armed :: s.armed[t].lid == lid) || (exists c | c in s.running :: c.lid == lid)
  }

  /** Each monitor not reported closed has a check coming. */
  ghost predicate ChecksComing(s: State) {
    !s.cancelled ==> forall lid | Watching(s, lid) :: CheckComing(s, lid)
  }

  /** The closure of the monitor was published. */
  ghost predicate ReportedClosed(log: seq<Action>, m: Monitor) {
    exists a | a in log :: a.Publish? && a.ok && a.m == m
  }

  /** A transaction names 1 to `MAX_WITHDRAW_BATCH` leases, all different. */
  ghost predicate WellFormedBatch(items: seq<Monitor>) {
    && 1 <= |items| <= MAX_WITHDRAW_BATCH
    && forall i, j | 0 <= i < j < |items| :: items[i].lid != items[j].lid
  }

  /** After the closure of a monitor is published, the loop does nothing about that monitor. */
  ghost predicate LogSound(s: State) {
    && (forall m | m in s.states :: s.states[m].closed <==> ReportedClosed(s.log, m))
    && (forall a, m | a in s.log && Concerns(a, m) :: m in s.states)
    && (forall i, j | 0 <= i < j < |s.log| && s.log[i].Publish? && s.log[i].ok :: !Concerns(s.log[j], s.log[i].m))
    && (forall a | a in s.log && a.Send? :: WellFormedBatch(a.items))
  }

  /** What holds within a step, before the next transaction is sent. */
  ghost predicate Consistent(s: State) {
    Tracked(s) && QueuesSound(s) && SendsBounded(s) && ChecksComing(s) && LogSound(s)
  }

  ghost predicate Inv(s: State) {
    Consistent(s) && NoneIdle(s)
  }

  // ---- What sending leaves alone ----

  ghost function Rest(s: State): (int, map<LeaseKey, Monitor>, map<Monitor, LeaseState>, nat, bool) {
    (s.period, s.leases, s.states, s.nextSerial, s.cancelled)
  }

  ghost function Timers(s: State): (map<TimerID, Check>, multiset<Check>, TimerID) {
    (s.armed, s.running, s.nextTimer)
  }

  lemma DispatchKeeps(s: State, p: Picked<Monitor>)
    ensures Rest(Dispatched(s, p)) == Rest(s) && Timers(Dispatched(s, p)) == Timers(s) && s.log <= Dispatched(s, p).log
  {}

  lemma SendKeeps(s: State)
    ensures Rest(SendWithdrawals(s)) == Rest(s) && Timers(SendWithdrawals(s)) == Timers(s)
    ensures s.log <= SendWithdrawals(s).log
  {
    DispatchKeeps(s, Pick(s.alone, s.due, Live(s)));
  }

  // ---- Every step keeps the monitors tracked ----

  lemma TrackedArm(s: State, m: Monitor, check: Check)
    requires Tracked(s) && m in s.states && check.lid == m.lid
    ensures Tracked(ArmTimer(s, m, check))
  {}

  lemma TrackedRearmed(s: State, m: Monitor, check: Check, outcome: Outcome, now: int)
    requires Tracked(s) && m in s.states && check.lid == m.lid && (outcome.OutOfFunds? || outcome.Funded?)
    ensures Tracked(Rearmed(s, m, check, outcome, now))
  {}

  lemma TrackedHandled(s: State, m: Monitor, check: Check, outcome: Outcome, published: bool, now: int)
    requires Tracked(s) && m in s.states && check.lid == m.lid
    ensures Tracked(Handled(s, m, check, outcome, published, now))
  {
    var retry := Check(check.lid, check.scheduledWithdraw, RETRY_CHECK_AFTER);
    match outcome
    case LeaseGone(reason) => TrackedArm(PublishClosure(s, m, reason, published), m, retry);
    case Failed => TrackedArm(s, m, retry);
    case _ =>
      TrackedRearmed(s, m, check, outcome, now);
      TrackedQueued(Rearmed(s, m, check, outcome, now), m);
  }

  lemma TrackedSend(s: State)
    requires Tracked(s)
    ensures Tracked(SendWithdrawals(s))
  {
    SendKeeps(s);
  }

  lemma TrackedQueued(s: State, m: Monitor)
    requires Tracked(s) && m in s.states
    ensures Tracked(SendWithdrawals(Queued(s, m)))
  {
    assert Tracked(Queued(s, m));
    TrackedSend(Queued(s, m));
  }

  lemma TrackedRegistered(s: State, lid: LeaseKey, at: Option<int>)
    requires Tracked(s)
    ensures Tracked(Registered(s, lid, at))
  {}

  lemma TrackedAdd(s: State, lid: LeaseKey, isNew: bool, at: Option<int>, checkIn: int)
    requires Tracked(s)
    ensures Tracked(OnAdd(s, lid, isNew, at, checkIn))
  {}

  lemma TrackedUpdate(s: State, t: State, m: Monitor, l: LeaseState)
    requires Tracked(s) && m in s.states && l.tm == s.states[m].tm && t.states == s.states[m := l]
    requires t.leases == s.leases && t.nextSerial == s.nextSerial && t.armed == s.armed && t.nextTimer == s.nextTimer
    ensures Tracked(t)
  {}

  lemma TrackedResult(s: State, result: TxResult, published: bool)
    requires Tracked(s) && s.inFlight != [] && s.inFlight[0] in s.states
    ensures Tracked(OnWithdrawResult(s, result, published))
  {
    if result.TxOk? {
      TrackedSend(Landed(s));
    } else if |s.inFlight| > 1 {
      TrackedSend(Requeued(s));
    } else {
      var m := s.inFlight[0];
      TrackedUpdate(s, Refused(s, m, result, published), m, AfterFailure(s.states[m], IsLive(s, m), result, published));
      TrackedSend(Refused(s, m, result, published));
    }
  }

  lemma TrackedStep(s: State, e: Event)
    requires Tracked(s)
    ensures Tracked(Step(s, e))
  {
    if Enabled(s, e) {
      match e
      case AddMonitor(lid, isNew, now, firstIn, checkIn) =>
        TrackedAdd(s, lid, isNew, FirstWithdrawal(s.period, isNew, now, firstIn), checkIn);
      case CheckDone(check, outcome, published, now) =>
        var t := s.(running := s.running - multiset{check});
        assert Tracked(t);
        if Watching(s, check.lid) { TrackedHandled(t, s.leases[check.lid], check, outcome, published, now); }
      case WithdrawDone(result, published) =>
        TrackedResult(s, result, published);
      case _ =>
    }
  }

  // ---- Every step keeps the queues sound ----

  lemma QueuesFrame(s: State, t: State)
    requires QueuesSound(s) && t.alone == s.alone && t.due == s.due && t.inFlight == s.inFlight
    requires forall m | m in s.states && s.states[m].withdrawing :: m in t.states && t.states[m].withdrawing
    requires forall m | m in t.states && IsLive(t, m) && t.states[m].withdrawing ::
               m in s.states && IsLive(s, m) && s.states[m].withdrawing
    ensures QueuesSound(t)
  {
    forall m ensures Occurs(t, m) == Occurs(s, m) {}
  }

  /** `p` is a fair pick from the queues. */
  ghost predicate FairPick(s: State, p: Picked<Monitor>) {
    && s.inFlight == []
    && (forall m :: Conserves(s.alone, s.due, Live(s), p, m))
    && |p.batch| <= MAX_WITHDRAW_BATCH
    && (p.batch == [] ==> p.alone == [] && p.due == [])
  }

  lemma NextIsFair(s: State)
    requires s.inFlight == []
    ensures FairPick(s, Pick(s.alone, s.due, Live(s)))
  {
    NextBatchSize(s.alone, s.due, Live(s));
    forall m ensures Conserves(s.alone, s.due, Live(s), Pick(s.alone, s.due, Live(s)), m) {
      NextMultiplicity(s.alone, s.due, Live(s), m);
    }
  }

  lemma QueuesDispatched(s: State, p: Picked<Monitor>)
    requires QueuesSound(s) && FairPick(s, p)
    ensures QueuesSound(Dispatched(s, p))
  {
    var t := Dispatched(s, p);
    forall m
      ensures Occurs(t, m) <= Occurs(s, m)
      ensures m in Live(s) ==> Occurs(t, m) == Occurs(s, m)
    {
      assert Conserves(s.alone, s.due, Live(s), p, m);
    }
    forall m | m in t.states && IsLive(t, m) ensures m in Live(s) { assert IsLive(s, m); }
  }

  lemma QueuesSend(s: State)
    requires QueuesSound(s)
    ensures QueuesSound(SendWithdrawals(s))
  {
    if s.inFlight == [] && !s.cancelled {
      NextIsFair(s);
      QueuesDispatched(s, Pick(s.alone, s.due, Live(s)));
    }
  }

  lemma QueuesQueued(s: State, m: Monitor)
    requires QueuesSound(s) && m in s.states && !s.states[m].withdrawing
    ensures QueuesSound(Queued(s, m))
  {
    var t := Queued(s, m);
    assert Occurs(s, m) == 0;
    forall n ensures Occurs(t, n) == if n == m then 1 else Occurs(s, n) {}
  }

  lemma QueuesRearmed(s: State, m: Monitor, check: Check, outcome: Outcome, now: int)
    requires QueuesSound(s) && m in s.states && (outcome.OutOfFunds? || outcome.Funded?)
    ensures QueuesSound(Rearmed(s, m, check, outcome, now))
  {
    QueuesFrame(s, Rearmed(s, m, check, outcome, now));
  }

  lemma QueuesGone(s: State, m: Monitor, check: Check, outcome: Outcome, published: bool, now: int)
    requires QueuesSound(s) && m in s.states && (outcome.Failed? || outcome.LeaseGone?)
    ensures QueuesSound(Handled(s, m, check, outcome, published, now))
  {
    QueuesFrame(s, Handled(s, m, check, outcome, published, now));
  }

  lemma QueuesHandled(s: State, m: Monitor, check: Check, outcome: Outcome, published: bool, now: int)
    requires QueuesSound(s) && m in s.states
    ensures QueuesSound(Handled(s, m, check, outcome, published, now))
  {
    if outcome.OutOfFunds? || outcome.Funded? {
      var t := Rearmed(s, m, check, outcome, now);
      QueuesRearmed(s, m, check, outcome, now);
      if WantsWithdraw(s, m, check, outcome) && !s.states[m].withdrawing {
        QueuesQueued(t, m);
        QueuesSend(Queued(t, m));
      }
    } else {
      QueuesGone(s, m, check, outcome, published, now);
    }
  }

  /** The withdrawals in flight are done: their monitors stop withdrawing, nothing else changes. */
  lemma QueuesLand(s: State, t: State)
    requires QueuesSound(s) && t.alone == s.alone && t.due == s.due && t.inFlight == [] && t.leases == s.leases
    requires t.states.Keys == s.states.Keys
    requires forall m | m in s.states :: t.states[m].withdrawing <==> s.states[m].withdrawing && m !in s.inFlight
    requires forall m | m in s.states && s.states[m].closed :: t.states[m].closed
    ensures QueuesSound(t)
  {
    forall m ensures Occurs(t, m) == (if m in s.inFlight then 0 else Occurs(s, m)) {
      assert Occurs(s, m) <= 1;
      assert m in s.inFlight <==> multiset(s.inFlight)[m] > 0;
    }
  }

  lemma QueuesRequeued(s: State)
    requires QueuesSound(s)
    ensures QueuesSound(Requeued(s))
  {
    forall m ensures Occurs(Requeued(s), m) == Occurs(s, m) {}
  }

  lemma QueuesRefused(s: State, m: Monitor, err: TxResult, published: bool)
    requires QueuesSound(s) && s.inFlight == [m] && m in s.states
    ensures QueuesSound(Refused(s, m, err, published))
  {
    QueuesLand(s, Refused(s, m, err, published));
  }

  lemma QueuesResult(s: State, result: TxResult, published: bool)
    requires QueuesSound(s) && s.inFlight != [] && s.inFlight[0] in s.states
    ensures QueuesSound(OnWithdrawResult(s, result, published))
  {
    if result.TxOk? {
      QueuesLand(s, Landed(s));
      QueuesSend(Landed(s));
    } else if |s.inFlight| > 1 {
      QueuesRequeued(s);
      QueuesSend(Requeued(s));
    } else {
      assert s.inFlight == [s.inFlight[0]];
      QueuesRefused(s, s.inFlight[0], result, published);
      QueuesSend(Refused(s, s.inFlight[0], result, published));
    }
  }

  lemma QueuesStep(s: State, e: Event)
    requires Tracked(s) && QueuesSound(s)
    ensures QueuesSound(Step(s, e))
  {
    if Enabled(s, e) {
      match e
      case CheckDone(check, outcome, published, now) =>
        var t := s.(running := s.running - multiset{check});
        QueuesFrame(s, t);
        if Watching(s, check.lid) { QueuesHandled(t, s.leases[check.lid], check, outcome, published, now); }
      case WithdrawDone(result, published) =>
        QueuesResult(s, result, published);
      case AddMonitor(lid, isNew, now, firstIn, checkIn) =>
        QueuesAdd(s, lid, isNew, FirstWithdrawal(s.period, isNew, now, firstIn), checkIn);
      case _ =>
        QueuesFrame(s, Step(s, e));
    }
  }

  lemma QueuesRegistered(s: State, lid: LeaseKey, at: Option<int>)
    requires Tracked(s) && QueuesSound(s)
    ensures QueuesSound(Registered(s, lid, at))
  {
    QueuesFrame(s, Registered(s, lid, at));
  }

  lemma QueuesStart(s: State, check: Check)
    requires QueuesSound(s)
    ensures QueuesSound(StartCheck(s, check))
  {
    QueuesFrame(s, StartCheck(s, check));
  }

  lemma QueuesArm(s: State, m: Monitor, check: Check)
    requires QueuesSound(s) && m in s.states
    ensures QueuesSound(ArmTimer(s, m, check))
  {
    QueuesFrame(s, ArmTimer(s, m, check));
  }

  lemma QueuesAdd(s: State, lid: LeaseKey, isNew: bool, at: Option<int>, checkIn: int)
    requires Tracked(s) && QueuesSound(s)
    ensures QueuesSound(OnAdd(s, lid, isNew, at, checkIn))
  {
    QueuesRegistered(s, lid, at);
    if isNew { QueuesStart(Registered(s, lid, at), Check(lid, false, 0)); }
    else { QueuesArm(Registered(s, lid, at), Monitor(lid, s.nextSerial), Check(lid, false, checkIn)); }
  }

  // ---- Every step keeps the transactions per withdrawal bounded ----

  lemma BoundsFrame(s: State, t: State)
    requires SendsBounded(s) && t.alone == s.alone && t.due == s.due && t.inFlight == s.inFlight
    requires t.txs == s.txs && t.states.Keys == s.states.Keys
    ensures SendsBounded(t)
  {}

  lemma BoundsDispatched(s: State, p: Picked<Monitor>)
    requires QueuesSound(s) && SendsBounded(s) && FairPick(s, p)
    ensures SendsBounded(Dispatched(s, p))
  {
    forall m
      ensures m in p.alone ==> m in s.alone && m !in p.batch
      ensures m in p.due ==> m in s.due && m !in p.batch
      ensures m in p.batch ==> m in s.alone || m in s.due
      ensures m in p.batch && |p.batch| > 1 ==> m in s.due
    {
      assert Occurs(s, m) <= 1;
      assert Conserves(s.alone, s.due, Live(s), p, m);
      NextMembers(s.alone, s.due, Live(s), p, m);
    }
  }

  lemma BoundsSend(s: State)
    requires QueuesSound(s) && SendsBounded(s)
    ensures SendsBounded(SendWithdrawals(s))
  {
    if s.inFlight == [] && !s.cancelled {
      NextIsFair(s);
      BoundsDispatched(s, Pick(s.alone, s.due, Live(s)));
    }
  }

  lemma BoundsQueued(s: State, m: Monitor)
    requires QueuesSound(s) && SendsBounded(s) && m in s.states && !s.states[m].withdrawing
    ensures SendsBounded(SendWithdrawals(Queued(s, m)))
  {
    assert Occurs(s, m) == 0;
    assert SendsBounded(Queued(s, m));
    QueuesQueued(s, m);
    BoundsSend(Queued(s, m));
  }

  lemma BoundsRearmed(s: State, m: Monitor, check: Check, outcome: Outcome, now: int)
    requires QueuesSound(s) && SendsBounded(s) && m in s.states && (outcome.OutOfFunds? || outcome.Funded?)
    ensures var t := Rearmed(s, m, check, outcome, now);
            SendsBounded(t) && (!s.states[m].withdrawing ==> SendsBounded(SendWithdrawals(Queued(t, m))))
  {
    var t := Rearmed(s, m, check, outcome, now);
    BoundsFrame(s, t);
    QueuesFrame(s, t);
    if !s.states[m].withdrawing { BoundsQueued(t, m); }
  }

  lemma BoundsHandled(s: State, m: Monitor, check: Check, outcome: Outcome, published: bool, now: int)
    requires QueuesSound(s) && SendsBounded(s) && m in s.states
    ensures SendsBounded(Handled(s, m, check, outcome, published, now))
  {
    if outcome.OutOfFunds? || outcome.Funded? {
      BoundsRearmed(s, m, check, outcome, now);
    } else {
      BoundsFrame(s, Handled(s, m, check, outcome, published, now));
    }
  }

  lemma BoundsLanded(s: State)
    requires SendsBounded(s)
    ensures SendsBounded(Landed(s))
  {}

  lemma BoundsRequeued(s: State)
    requires QueuesSound(s) && SendsBounded(s) && |s.inFlight| > 1
    ensures SendsBounded(Requeued(s))
  {}

  lemma BoundsRefused(s: State, m: Monitor, result: TxResult, published: bool)
    requires SendsBounded(s) && m in s.states
    ensures SendsBounded(Refused(s, m, result, published))
  {}

  lemma QueuesConcluded(s: State, result: TxResult, published: bool)
    requires QueuesSound(s) && s.inFlight != [] && s.inFlight[0] in s.states
    ensures QueuesSound(Concluded(s, result, published))
  {
    if result.TxOk? {
      QueuesLand(s, Landed(s));
    } else if |s.inFlight| > 1 {
      QueuesRequeued(s);
    } else {
      assert s.inFlight == [s.inFlight[0]];
      QueuesRefused(s, s.inFlight[0], result, published);
    }
  }

  lemma BoundsResult(s: State, result: TxResult, published: bool)
    requires QueuesSound(s) && SendsBounded(s) && s.inFlight != [] && s.inFlight[0] in s.states
    ensures SendsBounded(OnWithdrawResult(s, result, published))
  {
    QueuesConcluded(s, result, published);
    if result.TxOk? { BoundsLanded(s); }
    else if |s.inFlight| > 1 { BoundsRequeued(s); }
    else { BoundsRefused(s, s.inFlight[0], result, published); }
    BoundsSend(Concluded(s, result, published));
  }

  lemma BoundsAdd(s: State, lid: LeaseKey, isNew: bool, at: Option<int>, checkIn: int)
    requires Tracked(s) && QueuesSound(s) && SendsBounded(s)
    ensures SendsBounded(OnAdd(s, lid, isNew, at, checkIn))
  {}

  lemma BoundsStep(s: State, e: Event)
    requires Tracked(s) && QueuesSound(s) && SendsBounded(s)
    ensures SendsBounded(Step(s, e))
  {
    if Enabled(s, e) {
      match e
      case AddMonitor(lid, isNew, now, firstIn, checkIn) =>
        BoundsAdd(s, lid, isNew, FirstWithdrawal(s.period, isNew, now, firstIn), checkIn);
      case CheckDone(check, outcome, published, now) =>
        var t := s.(running := s.running - multiset{check});
        BoundsFrame(s, t);
        QueuesFrame(s, t);
        if Watching(s, check.lid) { BoundsHandled(t, s.leases[check.lid], check, outcome, published, now); }
      case WithdrawDone(result, published) =>
        BoundsResult(s, result, published);
      case _ => BoundsFrame(s, Step(s, e));
    }
  }

  // ---- Every step keeps the log sound ----

  lemma LogFrame(s: State, t: State)
    requires LogSound(s) && t.log == s.log
    requires forall m | m in s.states :: m in t.states && t.states[m].closed == s.states[m].closed
    requires forall m | m in t.states && m !in s.states :: !t.states[m].closed
    ensures LogSound(t)
  {}

  /** Appending an action about monitors not reported closed; a published closure marks its monitor. */
  lemma LogAppend(s: State, a: Action, t: State)
    requires LogSound(s) && t.log == s.log + [a] && t.states.Keys == s.states.Keys
    requires forall m | Concerns(a, m) :: m in s.states && !s.states[m].closed
    requires a.Send? ==> WellFormedBatch(a.items)
    requires forall m | m in s.states :: t.states[m].closed <==> s.states[m].closed || (a.Publish? && a.ok && a.m == m)
    ensures LogSound(t)
  {}

  lemma LogDispatched(s: State, p: Picked<Monitor>)
    requires QueuesSound(s) && LogSound(s) && FairPick(s, p)
    ensures LogSound(Dispatched(s, p))
  {
    if p.batch == [] {
      LogFrame(s, Dispatched(s, p));
    } else {
      forall m | m in p.batch ensures m in Live(s) && multiset(p.batch)[m] == 1 {
        assert Occurs(s, m) <= 1;
        assert Conserves(s.alone, s.due, Live(s), p, m);
        NextMembers(s.alone, s.due, Live(s), p, m);
      }
      forall i, j | 0 <= i < j < |p.batch| ensures p.batch[i].lid != p.batch[j].lid {
        DistinctIndices(p.batch, i, j);
        assert p.batch[i] in Live(s) && p.batch[j] in Live(s);
      }
      LogAppend(s, Send(p.batch), Dispatched(s, p));
    }
  }

  lemma LogSend(s: State)
    requires QueuesSound(s) && LogSound(s)
    ensures LogSound(SendWithdrawals(s))
  {
    if s.inFlight == [] && !s.cancelled {
      NextIsFair(s);
      LogDispatched(s, Pick(s.alone, s.due, Live(s)));
    }
  }

  lemma LogRearmed(s: State, m: Monitor, check: Check, outcome: Outcome, now: int)
    requires LogSound(s) && m in s.states && !s.states[m].closed && (outcome.OutOfFunds? || outcome.Funded?)
    ensures LogSound(Rearmed(s, m, check, outcome, now))
  {}

  lemma LogHandled(s: State, m: Monitor, check: Check, outcome: Outcome, published: bool, now: int)
    requires QueuesSound(s) && LogSound(s) && m in s.states && !s.states[m].closed
    ensures LogSound(Handled(s, m, check, outcome, published, now))
  {
    var retry := Check(check.lid, check.scheduledWithdraw, RETRY_CHECK_AFTER);
    match outcome
    case LeaseGone(reason) =>
      LogGone(s, m, reason, published, retry);
    case Failed =>
      LogArms(s, m, retry);
    case _ =>
      var t := Rearmed(s, m, check, outcome, now);
      LogRearmed(s, m, check, outcome, now);
      if !s.states[m].withdrawing {
        QueuesRearmed(s, m, check, outcome, now);
        LogQueued(t, m);
      }
  }

  lemma LogQueued(s: State, m: Monitor)
    requires QueuesSound(s) && LogSound(s) && m in s.states && !s.states[m].closed && !s.states[m].withdrawing
    ensures LogSound(SendWithdrawals(Queued(s, m)))
  {
    QueuesQueued(s, m);
    LogAppend(s, Queue(m), Queued(s, m));
    LogSend(Queued(s, m));
  }

  lemma LogGone(s: State, m: Monitor, reason: ClosedReason, published: bool, retry: Check)
    requires LogSound(s) && m in s.states && !s.states[m].closed
    ensures var t := PublishClosure(s, m, reason, published);
            LogSound(t) && (!published ==> LogSound(ArmTimer(t, m, retry)))
  {
    var t := PublishClosure(s, m, reason, published);
    LogAppend(s, Publish(m, reason, published), t);
    if !published { LogArms(t, m, retry); }
  }

  lemma LogRefused(s: State, m: Monitor, err: TxResult, published: bool)
    requires LogSound(s) && m in s.states
    ensures LogSound(Refused(s, m, err, published))
  {}

  lemma LogResult(s: State, result: TxResult, published: bool)
    requires QueuesSound(s) && LogSound(s) && s.inFlight != [] && s.inFlight[0] in s.states
    ensures LogSound(OnWithdrawResult(s, result, published))
  {
    if result.TxOk? {
      LogFrame(s, Landed(s));
      QueuesLand(s, Landed(s));
      LogSend(Landed(s));
    } else if |s.inFlight| > 1 {
      LogFrame(s, Requeued(s));
      QueuesRequeued(s);
      LogSend(Requeued(s));
    } else {
      assert s.inFlight == [s.inFlight[0]];
      LogRefused(s, s.inFlight[0], result, published);
      QueuesRefused(s, s.inFlight[0], result, published);
      LogSend(Refused(s, s.inFlight[0], result, published));
    }
  }

  lemma LogRegistered(s: State, lid: LeaseKey, at: Option<int>)
    requires Tracked(s) && LogSound(s)
    ensures LogSound(Registered(s, lid, at))
  {
    LogFrame(s, Registered(s, lid, at));
  }

  lemma LogArms(s: State, m: Monitor, check: Check)
    requires LogSound(s) && m in s.states && !s.states[m].closed
    ensures LogSound(ArmTimer(s, m, check))
  {
    LogAppend(s, Action.Arm(m), ArmTimer(s, m, check));
  }

  lemma LogAdd(s: State, lid: LeaseKey, isNew: bool, at: Option<int>, checkIn: int)
    requires Tracked(s) && LogSound(s)
    ensures LogSound(OnAdd(s, lid, isNew, at, checkIn))
  {
    LogRegistered(s, lid, at);
    if isNew { LogFrame(Registered(s, lid, at), OnAdd(s, lid, isNew, at, checkIn)); }
    else { LogArms(Registered(s, lid, at), Monitor(lid, s.nextSerial), Check(lid, false, checkIn)); }
  }

  lemma LogStep(s: State, e: Event)
    requires Tracked(s) && QueuesSound(s) && LogSound(s)
    ensures LogSound(Step(s, e))
  {
    if Enabled(s, e) {
      match e
      case AddMonitor(lid, isNew, now, firstIn, checkIn) =>
        LogAdd(s, lid, isNew, FirstWithdrawal(s.period, isNew, now, firstIn), checkIn);
      case CheckDone(check, outcome, published, now) =>
        var t := s.(running := s.running - multiset{check});
        LogFrame(s, t);
        QueuesFrame(s, t);
        if Watching(s, check.lid) { LogHandled(t, s.leases[check.lid], check, outcome, published, now); }
      case WithdrawDone(result, published) =>
        LogResult(s, result, published);
      case _ => LogFrame(s, Step(s, e));
    }
  }

  // ---- Every step keeps a check coming for each monitor ----

  /** `ChecksComing` for the other leases. */
  ghost predicate ChecksBut(s: State, lid: LeaseKey) {
    !s.cancelled ==> forall l | l != lid && Watching(s, l) :: CheckComing(s, l)
  }

  lemma ChecksFrame(s: State, t: State, lid: LeaseKey)
    requires ChecksBut(s, lid) && t.cancelled == s.cancelled
    requires forall l | l != lid && Watching(t, l) :: Watching(s, l)
    requires forall t' | t' in s.armed && s.armed[t'].lid != lid :: t' in t.armed && t.armed[t'] == s.armed[t']
    requires forall c | c in s.running && c.lid != lid :: c in t.running
    ensures ChecksBut(t, lid)
    ensures (Watching(t, lid) ==> CheckComing(t, lid)) ==> ChecksComing(t)
  {}

  lemma ChecksArm(s: State, m: Monitor, check: Check)
    requires Tracked(s) && ChecksBut(s, m.lid) && m in s.states && check.lid == m.lid
    ensures ChecksComing(ArmTimer(s, m, check))
  {
    var t := ArmTimer(s, m, check);
    assert t.armed[s.nextTimer].lid == m.lid;
    ChecksFrame(s, t, m.lid);
  }

  lemma ChecksSame(s: State, t: State)
    requires ChecksComing(s) && Rest(t) == Rest(s) && Timers(t) == Timers(s)
    ensures ChecksComing(t)
  {
    forall l | Watching(t, l) ensures Watching(s, l) {}
    forall l | CheckComing(s, l) ensures CheckComing(t, l) {}
  }

  lemma ChecksSend(s: State)
    requires ChecksComing(s)
    ensures ChecksComing(SendWithdrawals(s))
  {
    SendKeeps(s);
    ChecksSame(s, SendWithdrawals(s));
  }

  lemma ChecksQueued(s: State, m: Monitor)
    requires ChecksComing(s) && m in s.states
    ensures ChecksComing(SendWithdrawals(Queued(s, m)))
  {
    var t := Queued(s, m);
    forall l | Watching(t, l) ensures Watching(s, l) {}
    forall l | CheckComing(s, l) ensures CheckComing(t, l) {}
    ChecksSend(t);
  }

  lemma ChecksHandled(s: State, m: Monitor, check: Check, outcome: Outcome, published: bool, now: int)
    requires Tracked(s) && ChecksBut(s, check.lid) && check.lid in s.leases && s.leases[check.lid] == m
    ensures ChecksComing(Handled(s, m, check, outcome, published, now))
  {
    var retry := Check(check.lid, check.scheduledWithdraw, RETRY_CHECK_AFTER);
    match outcome
    case LeaseGone(reason) =>
      var t := PublishClosure(s, m, reason, published);
      ChecksFrame(s, t, check.lid);
      if !published {
        TrackedUpdate(s, t, m, t.states[m]);
        ChecksArm(t, m, retry);
      }
    case Failed =>
      ChecksArm(s, m, retry);
    case _ =>
      ChecksRearmed(s, m, check, outcome, now);
      ChecksQueued(Rearmed(s, m, check, outcome, now), m);
  }

  lemma ChecksRearmed(s: State, m: Monitor, check: Check, outcome: Outcome, now: int)
    requires Tracked(s) && ChecksBut(s, m.lid) && m in s.states && check.lid == m.lid
    requires outcome.OutOfFunds? || outcome.Funded?
    ensures ChecksComing(Rearmed(s, m, check, outcome, now))
  {
    var t := Rearmed(s, m, check, outcome, now);
    assert t.armed[s.nextTimer].lid == m.lid;
    ChecksFrame(s, t, m.lid);
  }

  lemma ChecksStart(s: State, check: Check)
    requires ChecksBut(s, check.lid)
    ensures ChecksComing(StartCheck(s, check))
  {
    assert check in StartCheck(s, check).running;
    ChecksFrame(s, StartCheck(s, check), check.lid);
  }

  lemma ChecksAdd(s: State, lid: LeaseKey, isNew: bool, at: Option<int>, checkIn: int)
    requires Tracked(s) && ChecksComing(s)
    ensures ChecksComing(OnAdd(s, lid, isNew, at, checkIn))
  {
    ChecksFrame(s, Registered(s, lid, at), lid);
    if isNew {
      ChecksStart(Registered(s, lid, at), Check(lid, false, 0));
    } else {
      TrackedRegistered(s, lid, at);
      ChecksArm(Registered(s, lid, at), Monitor(lid, s.nextSerial), Check(lid, false, checkIn));
    }
  }

  lemma ChecksUpdate(s: State, t: State)
    requires ChecksComing(s) && t.cancelled == s.cancelled && t.leases == s.leases && t.states.Keys == s.states.Keys
    requires forall m | m in s.states :: s.states[m].closed ==> t.states[m].closed
    requires t.armed == s.armed && t.running == s.running
    ensures ChecksComing(t)
  {
    forall l | Watching(t, l) ensures Watching(s, l) {}
    forall l | CheckComing(s, l) ensures CheckComing(t, l) {}
  }

  lemma ChecksResult(s: State, result: TxResult, published: bool)
    requires ChecksComing(s) && s.inFlight != [] && s.inFlight[0] in s.states
    ensures ChecksComing(OnWithdrawResult(s, result, published))
  {
    if result.TxOk? { ChecksUpdate(s, Landed(s)); }
    else if |s.inFlight| > 1 { ChecksUpdate(s, Requeued(s)); }
    else { ChecksRefused(s, s.inFlight[0], result, published); }
    ChecksSend(Concluded(s, result, published));
  }

  lemma ChecksRefused(s: State, m: Monitor, result: TxResult, published: bool)
    requires ChecksComing(s) && m in s.states
    ensures ChecksComing(Refused(s, m, result, published))
  {
    ChecksUpdate(s, Refused(s, m, result, published));
  }

  lemma ChecksStep(s: State, e: Event)
    requires Tracked(s) && ChecksComing(s)
    ensures ChecksComing(Step(s, e))
  {
    if Enabled(s, e) {
      match e
      case AddMonitor(lid, isNew, now, firstIn, checkIn) =>
        ChecksAdd(s, lid, isNew, FirstWithdrawal(s.period, isNew, now, firstIn), checkIn);
      case RemoveMonitor(lid) => ChecksFrame(s, OnRemove(s, lid), lid);
      case TimerFires(i) =>
        assert s.armed[i] in OnTimer(s, i).running;
        ChecksFrame(s, OnTimer(s, i), s.armed[i].lid);
      case CheckDone(check, outcome, published, now) =>
        var t := s.(running := s.running - multiset{check});
        ChecksFrame(s, t, check.lid);
        if Watching(s, check.lid) { ChecksHandled(t, s.leases[check.lid], check, outcome, published, now); }
      case WithdrawDone(result, published) =>
        ChecksResult(s, result, published);
      case _ =>
    }
  }

  // ---- Withdrawals wait only behind a transaction ----

  lemma NoneIdleSend(s: State)
    ensures NoneIdle(SendWithdrawals(s))
  {
    NextBatchSize(s.alone, s.due, Live(s));
  }

  lemma NoneIdleResult(s: State, result: TxResult, published: bool)
    requires s.inFlight != [] && s.inFlight[0] in s.states
    ensures NoneIdle(OnWithdrawResult(s, result, published))
  {
    if result.TxOk? { NoneIdleSend(Landed(s)); }
    else if |s.inFlight| > 1 { NoneIdleSend(Requeued(s)); }
    else { NoneIdleSend(Refused(s, s.inFlight[0], result, published)); }
  }

  lemma NoneIdleHandled(s: State, m: Monitor, check: Check, outcome: Outcome, published: bool, now: int)
    requires NoneIdle(s) && m in s.states
    ensures NoneIdle(Handled(s, m, check, outcome, published, now))
  {}

  lemma NoneIdleStep(s: State, e: Event)
    requires NoneIdle(s)
    ensures NoneIdle(Step(s, e))
  {
    if Enabled(s, e) {
      match e
      case CheckDone(check, outcome, published, now) =>
        if Watching(s, check.lid) {
          var t := s.(running := s.running - multiset{check});
          NoneIdleHandled(t, s.leases[check.lid], check, outcome, published, now);
        }
      case WithdrawDone(result, published) => NoneIdleResult(s, result, published);
      case _ =>
    }
  }

  // ---- Theorems about every run ----

  lemma StepKeeps(s: State, e: Event)
    requires Inv(s)
    ensures Inv(Step(s, e))
  {
    TrackedStep(s, e);
    QueuesStep(s, e);
    BoundsStep(s, e);
    LogStep(s, e);
    ChecksStep(s, e);
    NoneIdleStep(s, e);
  }

  lemma {:induction false} RunKeeps(s: State, es: seq<Event>)
    requires Inv(s)
    ensures Inv(Run(s, es))
  {
    if es != [] {
      RunKeeps(s, es[..|es| - 1]);
      StepKeeps(Run(s, es[..|es| - 1]), es[|es| - 1]);
    }
  }

  lemma InitInv(period: int)
    ensures Inv(Init(period))
  {}

  /** A state some run reaches, and with it everything below about runs. */
  ghost predicate Reachable(s: State) {
    exists period: int, es: seq<Event> :: s == Run(Init(period), es)
  }

  lemma ReachableStep(s: State, e: Event)
    requires Reachable(s)
    ensures Reachable(Step(s, e))
  {
    var period, es :| s == Run(Init(period), es);
    assert (es + [e])[..|es|] == es;
    assert Step(s, e) == Run(Init(period), es + [e]);
  }

  lemma ReachableInv(s: State)
    requires Reachable(s)
    ensures Inv(s)
  {
    var period, es :| s == Run(Init(period), es);
    InitInv(period);
    RunKeeps(Init(period), es);
  }

  /** No withdrawal is queued or in flight twice. */
  lemma QueuedOnce(s: State)
    requires Reachable(s)
    ensures Distinct(s.alone + s.due + s.inFlight)
  {
    ReachableInv(s);
    var ids := s.alone + s.due + s.inFlight;
    forall m | m in ids ensures multiset(ids)[m] == 1 {
      assert multiset(ids)[m] == Occurs(s, m);
    }
  }

  /** Serial numbers are never used twice. */
  lemma ReachableSerials(s: State)
    requires Reachable(s)
    ensures forall m | m in s.states :: m.serial < s.nextSerial
  {
    ReachableInv(s);
  }

  /** In every run each monitor's withdrawal is queued or in flight at most once, then it is marked
      withdrawing, and a current monitor not reported closed and marked withdrawing has exactly one:
      no withdrawal is duplicated or lost. */
  lemma {:induction false} WithdrawalsConserved(period: int, es: seq<Event>, m: Monitor)
    ensures var s := Run(Init(period), es);
            && Occurs(s, m) <= 1
            && (Occurs(s, m) == 1 ==> m in s.states && s.states[m].withdrawing)
            && (m in Live(s) && s.states[m].withdrawing ==> Occurs(s, m) == 1)
  {
    InitInv(period);
    RunKeeps(Init(period), es);
    assert Occurs(Run(Init(period), es), m) <= 1;
  }

  /** In every run each transaction names 1 to 20 different leases, a withdrawal waits only behind a
      transaction in flight, and none is in more than two transactions. */
  lemma {:induction false} TransactionsBounded(period: int, es: seq<Event>)
    ensures var s := Run(Init(period), es);
            && (forall a | a in s.log && a.Send? :: WellFormedBatch(a.items))
            && (s.inFlight == [] && !s.cancelled ==> s.due == [] && s.alone == [])
            && (forall m | m in s.txs :: s.txs[m] <= 2)
  {
    InitInv(period);
    RunKeeps(Init(period), es);
  }

  /** In every run, until the context ends, each monitor not reported closed has a check coming. */
  lemma {:induction false} EveryMonitorChecked(period: int, es: seq<Event>, lid: LeaseKey)
    requires var s := Run(Init(period), es); !s.cancelled && Watching(s, lid)
    ensures CheckComing(Run(Init(period), es), lid)
  {
    InitInv(period);
    RunKeeps(Init(period), es);
  }

  lemma LogGrowsHandled(s: State, m: Monitor, check: Check, outcome: Outcome, published: bool, now: int)
    requires m in s.states
    ensures s.log <= Handled(s, m, check, outcome, published, now).log
  {
    if outcome.OutOfFunds? || outcome.Funded? { SendKeeps(Queued(Rearmed(s, m, check, outcome, now), m)); }
  }

  lemma RefusedKeeps(s: State, m: Monitor, result: TxResult, published: bool)
    requires m in s.states
    ensures var t := Refused(s, m, result, published);
            (t.period, t.cancelled) == (s.period, s.cancelled) && s.log <= t.log
  {}

  lemma ConcludedKeeps(s: State, result: TxResult, published: bool)
    requires s.inFlight != [] && s.inFlight[0] in s.states
    ensures var t := Concluded(s, result, published);
            (t.period, t.cancelled) == (s.period, s.cancelled) && s.log <= t.log
  {
    RefusedKeeps(s, s.inFlight[0], result, published);
  }

  lemma LogGrows(s: State, e: Event)
    ensures s.log <= Step(s, e).log
  {
    if Enabled(s, e) {
      match e
      case CheckDone(check, outcome, published, now) =>
        if Watching(s, check.lid) {
          var t := s.(running := s.running - multiset{check});
          LogGrowsHandled(t, s.leases[check.lid], check, outcome, published, now);
        }
      case WithdrawDone(result, published) =>
        ConcludedKeeps(s, result, published);
        SendKeeps(Concluded(s, result, published));
      case _ =>
    }
  }

  lemma {:induction false} RunAppend(s: State, es: seq<Event>, more: seq<Event>)
    ensures Run(s, es + more) == Run(Run(s, es), more)
    ensures Run(s, es).log <= Run(s, es + more).log
  {
    if more == [] {
      assert es + more == es;
    } else {
      var front := more[..|more| - 1];
      RunAppend(s, es, front);
      assert (es + more)[..|es + more| - 1] == es + front;
      LogGrows(Run(s, es + front), more[|more| - 1]);
    }
  }

  lemma ClosedIsFinalIn(s: State, t: State, m: Monitor, j: nat)
    requires LogSound(s) && LogSound(t) && s.log <= t.log && m in s.states && s.states[m].closed
    requires |s.log| <= j < |t.log|
    ensures !Concerns(t.log[j], m)
  {}

  /** Once a monitor is reported closed, no continuation of the run publishes its closure, arms a timer for
      it, queues its withdrawal or sends it in a transaction. */
  lemma {:induction false} ClosedIsFinal(period: int, es: seq<Event>, more: seq<Event>, m: Monitor, j: nat)
    requires var s := Run(Init(period), es); m in s.states && s.states[m].closed
    requires |Run(Init(period), es).log| <= j < |Run(Init(period), es + more).log|
    ensures !Concerns(Run(Init(period), es + more).log[j], m)
  {
    InitInv(period);
    RunKeeps(Init(period), es);
    RunKeeps(Init(period), es + more);
    RunAppend(Init(period), es, more);
    ClosedIsFinalIn(Run(Init(period), es), Run(Init(period), es + more), m, j);
  }

  // ---- What is sent, and when ----

  /** `t` sent a transaction that `s` had not. */
  ghost predicate Sent(s: State, t: State) {
    |s.log| < |t.log| && t.log[|t.log| - 1].Send?
  }

  /** The last thing done was to send the transaction in flight, and all of it is current and not reported closed. */
  ghost predicate SentOnlyLive(t: State) {
    && t.log != [] && t.log[|t.log| - 1] == Send(t.inFlight) && t.inFlight != []
    && forall m | m in t.inFlight :: m in Live(t)
  }

  lemma SentLive(s: State)
    requires s.inFlight == [] && Sent(s, SendWithdrawals(s))
    ensures SentOnlyLive(SendWithdrawals(s))
  {
    NextIsFair(s);
    var t := SendWithdrawals(s);
    forall m | m in t.inFlight ensures m in Live(t) {
      assert Conserves(s.alone, s.due, Live(s), Pick(s.alone, s.due, Live(s)), m);
      assert IsLive(s, m) && IsLive(t, m);
    }
  }

  lemma SentHandled(s: State, m: Monitor, check: Check, outcome: Outcome, published: bool, now: int)
    requires m in s.states && Sent(s, Handled(s, m, check, outcome, published, now))
    ensures s.inFlight == [] && !s.cancelled
    ensures SentOnlyLive(Handled(s, m, check, outcome, published, now))
  {
    assert outcome.OutOfFunds? || outcome.Funded?;
    SentLive(Queued(Rearmed(s, m, check, outcome, now), m));
  }

  lemma SentResult(s: State, result: TxResult, published: bool)
    requires s.inFlight != [] && s.inFlight[0] in s.states && Sent(s, OnWithdrawResult(s, result, published))
    ensures SentOnlyLive(OnWithdrawResult(s, result, published))
  {
    if result.TxOk? { SentLive(Landed(s)); }
    else if |s.inFlight| > 1 { SentLive(Requeued(s)); }
    else { SentLive(Refused(s, s.inFlight[0], result, published)); }
  }

  lemma SentCheck(s: State, check: Check, outcome: Outcome, published: bool, now: int)
    requires check in s.running && Sent(s, OnCheck(s, check, outcome, published, now))
    ensures s.inFlight == [] && SentOnlyLive(OnCheck(s, check, outcome, published, now))
  {
    assert Watching(s, check.lid);
    SentHandled(s.(running := s.running - multiset{check}), s.leases[check.lid], check, outcome, published, now);
  }

  lemma AddSendsNothing(s: State, lid: LeaseKey, isNew: bool, at: Option<int>, checkIn: int)
    ensures !Sent(s, OnAdd(s, lid, isNew, at, checkIn))
  {}

  lemma OthersSendNothing(s: State, e: Event)
    requires Enabled(s, e) && (e.RemoveMonitor? || e.TimerFires? || e.ContextEnds? || e.CheckDropped?)
    ensures Step(s, e).log == s.log
  {}

  /** A step sends a transaction only if none is in flight or it brings the result of the one in flight,
      and every monitor in the new transaction is then current and not reported closed. */
  lemma SentWhenFree(s: State, e: Event)
    requires Sent(s, Step(s, e))
    ensures s.inFlight == [] || e.WithdrawDone?
    ensures SentOnlyLive(Step(s, e))
  {
    match e
    case AddMonitor(lid, isNew, now, firstIn, checkIn) =>
      AddSendsNothing(s, lid, isNew, FirstWithdrawal(s.period, isNew, now, firstIn), checkIn);
    case CheckDone(check, outcome, published, now) => SentCheck(s, check, outcome, published, now);
    case WithdrawDone(result, published) => SentResult(s, result, published);
    case _ => OthersSendNothing(s, e);
  }

  /** Bounds the transaction results still to come while no new withdrawal falls due. */
  ghost function Measure(s: State): nat {
    4 * |s.due| + 2 * |s.alone| + (if |s.inFlight| > 1 then 3 * |s.inFlight| else |s.inFlight|)
  }

  lemma MeasureSend(s: State)
    requires s.inFlight == []
    ensures Measure(SendWithdrawals(s)) <= Measure(s)
  {
    NextBatchSize(s.alone, s.due, Live(s));
    NextSizes(s.alone, s.due, Live(s));
  }

  /** Each transaction result brings the measure down. */
  lemma ResultDrains(s: State, result: TxResult, published: bool)
    requires s.inFlight != [] && s.inFlight[0] in s.states
    ensures Measure(OnWithdrawResult(s, result, published)) < Measure(s)
  {
    if result.TxOk? { MeasureSend(Landed(s)); }
    else if |s.inFlight| > 1 { MeasureSend(Requeued(s)); }
    else { MeasureSend(Refused(s, s.inFlight[0], result, published)); }
  }

  /** How many transaction results are among the events. */
  ghost function Results(es: seq<Event>): nat {
    if es == [] then 0 else Results(es[..|es| - 1]) + if es[|es| - 1].WithdrawDone? then 1 else 0
  }

  /** No withdrawal was queued between the two states of a run. */
  ghost predicate NoneQueued(s: State, t: State) {
    forall i | |s.log| <= i < |t.log| :: !t.log[i].Queue?
  }

  /** With no new arrivals, `Measure(s)` results leave no withdrawal queued or in flight, whatever else happens between
      them: monitors removed or added, timers, checks and their results. */
  lemma {:induction false} QueueDrains(s: State, es: seq<Event>)
    requires Inv(s) && !s.cancelled && ContextEnds !in es
    requires NoneQueued(s, Run(s, es)) && Results(es) >= Measure(s)
    ensures var t := Run(s, es); t.due == [] && t.alone == [] && t.inFlight == []
  {
    DrainsBy(s, es);
  }

  lemma {:induction false} DrainsBy(s: State, es: seq<Event>)
    requires Inv(s) && !s.cancelled && ContextEnds !in es && NoneQueued(s, Run(s, es))
    ensures var t := Run(s, es);
            !t.cancelled && (Measure(t) == 0 || Measure(t) + Results(es) <= Measure(s))
  {
    if es != [] {
      var front, e := es[..|es| - 1], es[|es| - 1];
      var t := Run(s, front);
      assert e in es;
      RunLogGrows(s, front);
      LogGrows(t, e);
      assert NoneQueued(s, t) && NoneQueued(t, Step(t, e));
      DrainsBy(s, front);
      RunKeeps(s, front);
      DrainsStep(t, e);
    }
  }

  lemma DrainsStep(s: State, e: Event)
    requires Inv(s) && !s.cancelled && !e.ContextEnds? && NoneQueued(s, Step(s, e))
    ensures !Step(s, e).cancelled
    ensures Measure(Step(s, e)) <= Measure(s)
    ensures e.WithdrawDone? ==> Measure(s) == 0 || Measure(Step(s, e)) < Measure(s)
  {
    match e
    case AddMonitor(lid, isNew, now, firstIn, checkIn) =>
      AddKeepsQueues(s, lid, isNew, FirstWithdrawal(s.period, isNew, now, firstIn), checkIn);
    case CheckDone(check, outcome, published, now) =>
      if Enabled(s, e) && Watching(s, check.lid) {
        var t := s.(running := s.running - multiset{check});
        HandledKeepsQueues(t, s.leases[check.lid], check, outcome, published, now);
      }
    case WithdrawDone(result, published) =>
      InFlightTracked(s);
      if s.inFlight != [] {
        ConcludedKeeps(s, result, published);
        SendKeeps(Concluded(s, result, published));
        ResultDrains(s, result, published);
      }
    case _ =>
  }

  lemma AddKeepsQueues(s: State, lid: LeaseKey, isNew: bool, at: Option<int>, checkIn: int)
    ensures var t := OnAdd(s, lid, isNew, at, checkIn); Measure(t) == Measure(s) && t.cancelled == s.cancelled
  {}

  lemma HandledKeepsQueues(s: State, m: Monitor, check: Check, outcome: Outcome, published: bool, now: int)
    requires m in s.states && NoneQueued(s, Handled(s, m, check, outcome, published, now))
    ensures var t := Handled(s, m, check, outcome, published, now);
            Measure(t) == Measure(s) && t.cancelled == s.cancelled
  {
    if outcome.OutOfFunds? || outcome.Funded? {
      var r := Rearmed(s, m, check, outcome, now);
      var q := Queued(r, m);
      SendKeeps(q);
      assert q.log[|s.log| + 1] == Queue(m);
    }
  }

  /** What is in flight is tracked, so that a result finds its lease's state. */
  lemma InFlightTracked(s: State)
    requires Inv(s)
    ensures s.inFlight != [] ==> s.inFlight[0] in s.states
  {
    if s.inFlight != [] { assert Occurs(s, s.inFlight[0]) >= 1; }
  }

  /** So in every run a transaction's result is handled exactly if one is in flight: `Enabled` asks no more of it. */
  lemma {:induction false} ResultIsHandled(period: int, es: seq<Event>, result: TxResult, published: bool)
    ensures Enabled(Run(Init(period), es), WithdrawDone(result, published)) <==> Run(Init(period), es).inFlight != []
  {
    InitInv(period);
    RunKeeps(Init(period), es);
    InFlightTracked(Run(Init(period), es));
  }

  lemma {:induction false} RunLogGrows(s: State, es: seq<Event>)
    ensures s.log <= Run(s, es).log
  {
    if es != [] {
      RunLogGrows(s, es[..|es| - 1]);
      LogGrows(Run(s, es[..|es| - 1]), es[|es| - 1]);
    }
  }

  // ---- A withdrawal that failed is not forgotten ----

  ghost predicate Retries(s: State, m: Monitor) {
    m in s.states && s.states[m].retryWithdraw
  }

  /** A check of the lease that got an answer. */
  predicate Answered(e: Event, lid: LeaseKey) {
    e.CheckDone? && e.check.lid == lid && (e.outcome.OutOfFunds? || e.outcome.Funded?)
  }

  /** The failure of a withdrawal from one lease, for another reason than a closed escrow, sets the flag. */
  lemma FailureSetsRetry(s: State, m: Monitor, result: TxResult, published: bool)
    requires s.inFlight == [m] && m in s.states && IsLive(s, m) && !result.TxOk? && !IsEscrowClosed(result)
    ensures Retries(Step(s, WithdrawDone(result, published)), m)
  {
    SendKeeps(Refused(s, m, result, published));
  }

  lemma RetryLanded(s: State, m: Monitor)
    requires Retries(s, m)
    ensures Retries(Landed(s), m)
  {}

  lemma RetryRefused(s: State, n: Monitor, result: TxResult, published: bool, m: Monitor)
    requires n in s.states && Retries(s, m)
    ensures Retries(Refused(s, n, result, published), m)
  {}

  lemma RetryAfterResult(s: State, result: TxResult, published: bool, m: Monitor)
    requires s.inFlight != [] && s.inFlight[0] in s.states && Retries(s, m)
    ensures Retries(OnWithdrawResult(s, result, published), m)
  {
    if result.TxOk? {
      RetryLanded(s, m);
    } else if |s.inFlight| == 1 {
      RetryRefused(s, s.inFlight[0], result, published, m);
    }
    SendKeeps(Concluded(s, result, published));
  }

  lemma RetryAfterCheck(s: State, n: Monitor, check: Check, outcome: Outcome, published: bool, now: int, m: Monitor)
    requires n in s.states && Retries(s, m) && (n != m || outcome.Failed? || outcome.LeaseGone?)
    ensures Retries(Handled(s, n, check, outcome, published, now), m)
  {
    if outcome.OutOfFunds? || outcome.Funded? {
      SendKeeps(Queued(Rearmed(s, n, check, outcome, now), n));
    }
  }

  /** Any event but an answered check of the lease leaves the flag set. */
  lemma RetryStays(s: State, e: Event, m: Monitor)
    requires Tracked(s) && Retries(s, m) && !Answered(e, m.lid)
    ensures Retries(Step(s, e), m)
  {
    if Enabled(s, e) {
      match e
      case CheckDone(check, outcome, published, now) =>
        if Watching(s, check.lid) {
          var t := s.(running := s.running - multiset{check});
          RetryAfterCheck(t, s.leases[check.lid], check, outcome, published, now, m);
        }
      case WithdrawDone(result, published) => RetryAfterResult(s, result, published, m);
      case _ =>
    }
  }

  lemma {:induction false} RetryLasts(s: State, es: seq<Event>, m: Monitor)
    requires Inv(s) && Retries(s, m) && forall e | e in es :: !Answered(e, m.lid)
    ensures Retries(Run(s, es), m)
  {
    if es != [] {
      var front, e := es[..|es| - 1], es[|es| - 1];
      assert e in es;
      RetryLasts(s, front, m);
      RunKeeps(s, front);
      RetryStays(Run(s, front), e, m);
    }
  }

  lemma CheckRetries(s: State, check: Check, outcome: Outcome, published: bool, now: int)
    requires Inv(s) && check in s.running && Watching(s, check.lid) && (outcome.OutOfFunds? || outcome.Funded?)
    requires WantsWithdraw(s, s.leases[check.lid], check, outcome)
    ensures Occurs(OnCheck(s, check, outcome, published, now), s.leases[check.lid]) == 1
  {
    var m := s.leases[check.lid];
    var r := s.(running := s.running - multiset{check});
    HandledWithdraws(r, m, check, outcome, published, now);
    QueuesFrame(s, r);
    QueuesHandled(r, m, check, outcome, published, now);
    LiveOccurs(Handled(r, m, check, outcome, published, now), m);
  }

  lemma {:induction false} PeriodKept(period: int, es: seq<Event>)
    ensures Run(Init(period), es).period == period
  {
    if es != [] {
      PeriodKept(period, es[..|es| - 1]);
      PeriodStep(Run(Init(period), es[..|es| - 1]), es[|es| - 1]);
    }
  }

  lemma PeriodHandled(s: State, m: Monitor, check: Check, outcome: Outcome, published: bool, now: int)
    requires m in s.states
    ensures Handled(s, m, check, outcome, published, now).period == s.period
  {
    if outcome.OutOfFunds? || outcome.Funded? { SendKeeps(Queued(Rearmed(s, m, check, outcome, now), m)); }
  }

  lemma PeriodStep(s: State, e: Event)
    ensures Step(s, e).period == s.period
  {
    if Enabled(s, e) {
      match e
      case CheckDone(check, outcome, published, now) =>
        if Watching(s, check.lid) {
          var t := s.(running := s.running - multiset{check});
          PeriodHandled(t, s.leases[check.lid], check, outcome, published, now);
        }
      case WithdrawDone(result, published) =>
        ConcludedKeeps(s, result, published);
        SendKeeps(Concluded(s, result, published));
      case _ =>
    }
  }

  // ---- Withdrawals turned off ----

  ghost predicate Quiet(s: State) {
    s.due == [] && s.alone == [] && s.inFlight == [] && forall a | a in s.log :: !a.Queue? && !a.Send?
  }

  lemma QuietAdd(s: State, lid: LeaseKey, isNew: bool, at: Option<int>, checkIn: int)
    requires Quiet(s)
    ensures Quiet(OnAdd(s, lid, isNew, at, checkIn))
  {}

  lemma QuietHandled(s: State, m: Monitor, check: Check, outcome: Outcome, published: bool, now: int)
    requires Quiet(s) && s.period <= 0 && m in s.states
    ensures Quiet(Handled(s, m, check, outcome, published, now))
  {}

  lemma QuietStep(s: State, e: Event)
    requires Quiet(s) && s.period <= 0 && Tracked(s)
    ensures Quiet(Step(s, e))
  {
    if Enabled(s, e) {
      match e
      case AddMonitor(lid, isNew, now, firstIn, checkIn) =>
        QuietAdd(s, lid, isNew, FirstWithdrawal(s.period, isNew, now, firstIn), checkIn);
      case CheckDone(check, outcome, published, now) =>
        if Watching(s, check.lid) {
          var t := s.(running := s.running - multiset{check});
          QuietHandled(t, s.leases[check.lid], check, outcome, published, now);
        }
      case _ =>
    }
  }

  /** Without a withdrawal period no run queues or sends a withdrawal, not even from a lease out of funds. */
  lemma {:induction false} NoPeriodNoWithdrawals(period: int, es: seq<Event>)
    requires period <= 0
    ensures Quiet(Run(Init(period), es))
  {
    if es != [] {
      var before := es[..|es| - 1];
      NoPeriodNoWithdrawals(period, before);
      InitInv(period);
      RunKeeps(Init(period), before);
      PeriodKept(period, before);
      QuietStep(Run(Init(period), before), es[|es| - 1]);
    }
  }

  // ---- Failures are retried ----

  lemma {:induction false} FailureMarks(period: int, es: seq<Event>, m: Monitor, result: TxResult, published: bool,
                                        more: seq<Event>)
    requires !result.TxOk? && !IsEscrowClosed(result) && forall e | e in more :: !Answered(e, m.lid)
    requires var s := Run(Init(period), es); s.inFlight == [m] && m in s.states && IsLive(s, m)
    ensures Retries(Run(Init(period), es + [WithdrawDone(result, published)] + more), m)
  {
    var upTo := es + [WithdrawDone(result, published)];
    InitInv(period);
    RunKeeps(Init(period), upTo);
    RunOneMore(period, es, WithdrawDone(result, published));
    FailureSetsRetry(Run(Init(period), es), m, result, published);
    RunAppend(Init(period), upTo, more);
    RetryLasts(Run(Init(period), upTo), more, m);
  }

  /** In every run: once a withdrawal from one lease failed for another reason than a closed escrow, then however the
      run goes on, the next check of the lease that gets an answer, if its monitor is still current and not reported
      closed, queues the withdrawal again. */
  lemma {:induction false} FailureRetried(period: int, es: seq<Event>, m: Monitor, result: TxResult, published: bool,
                                          more: seq<Event>, answer: Event)
    requires !result.TxOk? && !IsEscrowClosed(result)
    requires var s := Run(Init(period), es); s.inFlight == [m] && m in s.states && IsLive(s, m)
    requires (forall e | e in more :: !Answered(e, m.lid)) && Answered(answer, m.lid)
    requires var t := Run(Init(period), es + [WithdrawDone(result, published)] + more);
             answer.check in t.running && m in t.states && IsLive(t, m)
    ensures Occurs(Run(Init(period), es + [WithdrawDone(result, published)] + more + [answer]), m) == 1
  {
    FailureMarks(period, es, m, result, published, more);
    if period <= 0 { NoPeriodNoWithdrawals(period, es); }
    AnswerRetries(period, es + [WithdrawDone(result, published)] + more, m, answer);
  }

  lemma {:induction false} AnswerRetries(period: int, es: seq<Event>, m: Monitor, answer: Event)
    requires period > 0 && Answered(answer, m.lid)
    requires var t := Run(Init(period), es);
             answer.check in t.running && m in t.states && IsLive(t, m) && Retries(t, m)
    ensures Occurs(Run(Init(period), es + [answer]), m) == 1
  {
    InitInv(period);
    RunKeeps(Init(period), es);
    PeriodKept(period, es);
    RunOneMore(period, es, answer);
    AnswerQueues(Run(Init(period), es), m, answer);
  }

  lemma AnswerQueues(s: State, m: Monitor, answer: Event)
    requires Inv(s) && s.period > 0 && Answered(answer, m.lid)
    requires answer.check in s.running && m in s.states && IsLive(s, m) && Retries(s, m)
    ensures Occurs(Step(s, answer), m) == 1
  {
    CheckRetries(s, answer.check, answer.outcome, answer.published, answer.now);
  }

  lemma {:induction false} RunOneMore(period: int, es: seq<Event>, e: Event)
    ensures Run(Init(period), es + [e]) == Step(Run(Init(period), es), e)
  {
    assert (es + [e])[..|es|] == es;
  }

  lemma LiveOccurs(s: State, m: Monitor)
    requires QueuesSound(s) && m in s.states && IsLive(s, m) && s.states[m].withdrawing
    ensures Occurs(s, m) == 1
  {}

  lemma HandledWithdraws(s: State, m: Monitor, check: Check, outcome: Outcome, published: bool, now: int)
    requires m in s.states && (outcome.OutOfFunds? || outcome.Funded?) && WantsWithdraw(s, m, check, outcome)
    ensures var t := Handled(s, m, check, outcome, published, now);
            t.leases == s.leases && m in t.states && t.states[m].withdrawing && t.states[m].closed == s.states[m].closed
  {
    SendKeeps(Queued(Rearmed(s, m, check, outcome, now), m));
  }
}
