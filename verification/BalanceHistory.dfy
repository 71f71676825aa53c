/** The balance checker told from its events: which monitor a lease has, when a withdrawal is due, and everything an
    event makes the loop do, in terms of what was delivered to it before. */
module BalanceHistory {
  import opened Market
  import opened WithdrawQueue
  import opened BalanceLoop

  // ---- What one event does, state by state ----

  ghost predicate Answered(outcome: Outcome) {
    outcome.OutOfFunds? || outcome.Funded?
  }

  /** The check's result is for the lease's current monitor, not reported closed. */
  ghost predicate Reaches(s: State, e: Event, m: Monitor) {
    e.CheckDone? && e.check in s.running && Watching(s, e.check.lid) && s.leases[e.check.lid] == m
  }

  /** A check that got an answer asks for a withdrawal: there is a withdrawal period, and the lease is out of funds, or
      the check was made for the scheduled withdrawal, or the one before failed. */
  ghost predicate Wants(period: int, check: Check, outcome: Outcome, failed: bool) {
    period > 0 && (outcome.OutOfFunds? || check.scheduledWithdraw || failed)
  }

  /** The transaction that goes out of these queues. */
  ghost function Sends(alone: seq<Monitor>, due: seq<Monitor>, inFlight: seq<Monitor>, cancelled: bool,
                       live: set<Monitor>): seq<Action>
  {
    if inFlight != [] || cancelled || Pick(alone, due, live).batch == [] then []
    else [Send(Pick(alone, due, live).batch)]
  }

  ghost function If(b: bool, a: Action): seq<Action> {
    if b then [a] else []
  }

  lemma SendDoes(s: State)
    ensures SendWithdrawals(s).log == s.log + Sends(s.alone, s.due, s.inFlight, s.cancelled, Live(s))
    ensures Live(SendWithdrawals(s)) == Live(s)
  {
    var p := Pick(s.alone, s.due, Live(s));
    DispatchKeeps(s, p);
    if s.inFlight == [] && !s.cancelled { DispatchDoes(s, p); }
  }

  lemma DispatchDoes(s: State, p: Picked<Monitor>)
    ensures Dispatched(s, p).log == s.log + if p.batch == [] then [] else [Send(p.batch)]
    ensures Live(Dispatched(s, p)) == Live(s)
  {}

  /** What a check's answer makes the loop do. */
  lemma AnswerDoes(s: State, m: Monitor, check: Check, outcome: Outcome, published: bool, now: int)
    requires m in s.states && Answered(outcome)
    ensures var queue := Wants(s.period, check, outcome, s.states[m].retryWithdraw) && !s.states[m].withdrawing;
            Handled(s, m, check, outcome, published, now).log == s.log + [Arm(m)] +
            if queue then [Queue(m)] + Sends(s.alone, s.due + [m], s.inFlight, s.cancelled, Live(s)) else []
  {
    var r := Rearmed(s, m, check, outcome, now);
    var q := Queued(r, m);
    assert Live(q) == Live(s);
    SendDoes(q);
  }

  /** The monitor whose lone withdrawal fails for a closed escrow while it is current and not reported closed. */
  ghost predicate Overdrawn(s: State, result: TxResult) {
    |s.inFlight| == 1 && IsEscrowClosed(result) && s.inFlight[0] in s.states && IsLive(s, s.inFlight[0])
  }

  ghost function ReasonFor(result: TxResult): ClosedReason {
    if result.AccountClosed? then Owner else Unspecified
  }

  /** What the result of the transaction in flight makes the loop do. */
  ghost function ResultDoing(s: State, result: TxResult, published: bool, live: set<Monitor>): seq<Action>
    requires s.inFlight != []
  {
    If(Overdrawn(s, result), Publish(s.inFlight[0], ReasonFor(result), published)) +
    Sends(if !result.TxOk? && |s.inFlight| > 1 then s.alone + s.inFlight else s.alone, s.due, [], s.cancelled, live)
  }

  lemma ConcludedDoes(s: State, result: TxResult, published: bool)
    requires s.inFlight != [] && s.inFlight[0] in s.states
    ensures var t := Concluded(s, result, published);
            && t.log == s.log + If(Overdrawn(s, result), Publish(s.inFlight[0], ReasonFor(result), published))
            && t.alone == (if !result.TxOk? && |s.inFlight| > 1 then s.alone + s.inFlight else s.alone)
            && t.due == s.due && t.inFlight == [] && t.cancelled == s.cancelled
  {}

  lemma ResultDoes(s: State, result: TxResult, published: bool)
    requires s.inFlight != [] && s.inFlight[0] in s.states
    ensures var t := OnWithdrawResult(s, result, published);
            t.log == s.log + ResultDoing(s, result, published, Live(t))
  {
    ConcludedDoes(s, result, published);
    SendDoes(Concluded(s, result, published));
  }

  /** What a check's result makes the loop do about the monitor it reaches. */
  ghost function CheckDoes(s: State, m: Monitor, check: Check, outcome: Outcome, published: bool, queue: bool)
    : seq<Action>
  {
    if outcome.LeaseGone? then [Publish(m, outcome.reason, published)] + If(!published, Arm(m))
    else if outcome.Failed? then [Arm(m)]
    else [Arm(m)] + if queue then [Queue(m)] + Sends(s.alone, s.due + [m], s.inFlight, s.cancelled, Live(s)) else []
  }

  lemma HandledDoes(s: State, m: Monitor, check: Check, outcome: Outcome, published: bool, now: int)
    requires m in s.states
    ensures var queue := Wants(s.period, check, outcome, s.states[m].retryWithdraw) && !s.states[m].withdrawing;
            Handled(s, m, check, outcome, published, now).log
            == s.log + CheckDoes(s, m, check, outcome, published, queue)
  {
    if Answered(outcome) { AnswerDoes(s, m, check, outcome, published, now); }
  }

  /** What an event makes the loop do, given the set of live monitors after it. */
  ghost function StepDoing(s: State, e: Event, live: set<Monitor>): seq<Action> {
    if !Enabled(s, e) then []
    else match e
      case AddMonitor(lid, isNew, _, _, _) => If(!isNew, Arm(Monitor(lid, s.nextSerial)))
      case CheckDone(check, outcome, published, _) =>
        if !Watching(s, check.lid) then []
        else
          var m := s.leases[check.lid];
          CheckDoes(s, m, check, outcome, published,
                    Wants(s.period, check, outcome, s.states[m].retryWithdraw) && !s.states[m].withdrawing)
      case WithdrawDone(result, published) => ResultDoing(s, result, published, live)
      case _ => []
  }

  lemma AddDoes(s: State, lid: LeaseKey, isNew: bool, at: Option<int>, checkIn: int)
    ensures OnAdd(s, lid, isNew, at, checkIn).log == s.log + If(!isNew, Arm(Monitor(lid, s.nextSerial)))
  {}

  lemma CheckDoneDoes(s: State, check: Check, outcome: Outcome, published: bool, now: int)
    requires check in s.running && Watching(s, check.lid)
    ensures var m := s.leases[check.lid];
            var queue := Wants(s.period, check, outcome, s.states[m].retryWithdraw) && !s.states[m].withdrawing;
            OnCheck(s, check, outcome, published, now).log
            == s.log + CheckDoes(s, m, check, outcome, published, queue)
  {
    var t := s.(running := s.running - multiset{check});
    assert Live(t) == Live(s);
    HandledDoes(t, s.leases[check.lid], check, outcome, published, now);
  }

  lemma CheckStepDoes(s: State, e: Event)
    requires e.CheckDone? && e.check in s.running
    ensures Step(s, e).log == s.log + StepDoing(s, e, Live(Step(s, e)))
  {
    if Watching(s, e.check.lid) { CheckDoneDoes(s, e.check, e.outcome, e.published, e.now); }
  }

  lemma ResultStepDoes(s: State, e: Event)
    requires e.WithdrawDone? && Enabled(s, e)
    ensures Step(s, e).log == s.log + StepDoing(s, e, Live(Step(s, e)))
  {
    ResultDoes(s, e.result, e.published);
  }

  lemma StepDoes(s: State, e: Event)
    ensures Step(s, e).log == s.log + StepDoing(s, e, Live(Step(s, e)))
  {
    if Enabled(s, e) {
      if e.AddMonitor? {
        AddDoes(s, e.lid, e.isNew, FirstWithdrawal(s.period, e.isNew, e.now, e.firstIn), e.checkIn);
      } else if e.CheckDone? {
        CheckStepDoes(s, e);
      } else if e.WithdrawDone? {
        ResultStepDoes(s, e);
      }
    }
  }

  // ---- What every run keeps, in the terms used here ----

  ghost function After(period: int, es: seq<Event>): State {
    Run(Init(period), es)
  }

  ghost predicate Backed(s: State) {
    && (forall lid | lid in s.leases :: s.leases[lid].lid == lid && s.leases[lid] in s.states)
    && (forall m | m in s.states :: m.serial < s.nextSerial)
    && (forall m | m in s.inFlight :: m in s.states)
  }

  ghost predicate ClosedIsTold(s: State) {
    forall m | m in s.states :: s.states[m].closed <==> ReportedClosed(s.log, m)
  }

  ghost predicate BusyIsQueued(s: State) {
    forall m | m in s.states && IsLive(s, m) :: s.states[m].withdrawing <==> Occurs(s, m) > 0
  }

  lemma InvFacts(s: State)
    requires Inv(s)
    ensures Backed(s) && ClosedIsTold(s) && BusyIsQueued(s)
  {
    forall m | m in s.inFlight ensures m in s.states {
      assert multiset(s.inFlight)[m] > 0;
      assert Occurs(s, m) == 1;
    }
  }

  lemma {:induction false} Facts(period: int, es: seq<Event>)
    ensures Backed(After(period, es)) && ClosedIsTold(After(period, es)) && BusyIsQueued(After(period, es))
    ensures After(period, es).period == period
  {
    InitInv(period);
    RunKeeps(Init(period), es);
    InvFacts(After(period, es));
    PeriodKept(period, es);
  }

  // ---- Which monitor a lease has ----

  ghost function Adds(es: seq<Event>): nat {
    if es == [] then 0 else Adds(es[..|es| - 1]) + if es[|es| - 1].AddMonitor? then 1 else 0
  }

  /** The monitor added last for the lease, unless it was removed since. */
  ghost function Current(es: seq<Event>, lid: LeaseKey): Option<Monitor> {
    if es == [] then None
    else
      var front, e := es[..|es| - 1], es[|es| - 1];
      if e.AddMonitor? && e.lid == lid then Some(Monitor(lid, Adds(front)))
      else if e == RemoveMonitor(lid) then None
      else Current(front, lid)
  }

  lemma HandledLeases(s: State, m: Monitor, check: Check, outcome: Outcome, published: bool, now: int)
    requires m in s.states
    ensures var t := Handled(s, m, check, outcome, published, now);
            t.leases == s.leases && t.nextSerial == s.nextSerial
  {
    if Answered(outcome) { SendKeeps(Queued(Rearmed(s, m, check, outcome, now), m)); }
  }

  ghost function LeasesAfter(s: State, e: Event): map<LeaseKey, Monitor> {
    match e
    case AddMonitor(lid, _, _, _, _) => s.leases[lid := Monitor(lid, s.nextSerial)]
    case RemoveMonitor(lid) => s.leases - {lid}
    case _ => s.leases
  }

  lemma CheckLeases(s: State, check: Check, outcome: Outcome, published: bool, now: int)
    requires check in s.running
    ensures var t := OnCheck(s, check, outcome, published, now);
            t.leases == s.leases && t.nextSerial == s.nextSerial
  {
    if Watching(s, check.lid) {
      var t := s.(running := s.running - multiset{check});
      HandledLeases(t, s.leases[check.lid], check, outcome, published, now);
    }
  }

  lemma SendLeases(s: State)
    ensures var t := SendWithdrawals(s); t.leases == s.leases && t.nextSerial == s.nextSerial && t.states == s.states
  {
    SendKeeps(s);
    assert Rest(SendWithdrawals(s)).1 == Rest(s).1 && Rest(SendWithdrawals(s)).3 == Rest(s).3;
  }

  lemma ConcludedLeases(s: State, result: TxResult, published: bool)
    requires s.inFlight != [] && s.inFlight[0] in s.states
    ensures var t := Concluded(s, result, published); t.leases == s.leases && t.nextSerial == s.nextSerial
  {}

  lemma ResultLeases(s: State, result: TxResult, published: bool)
    requires s.inFlight != [] && s.inFlight[0] in s.states
    ensures var t := OnWithdrawResult(s, result, published);
            t.leases == s.leases && t.nextSerial == s.nextSerial
  {
    ConcludedLeases(s, result, published);
    SendLeases(Concluded(s, result, published));
  }

  lemma RemoveLeases(s: State, lid: LeaseKey)
    requires Backed(s)
    ensures OnRemove(s, lid).leases == s.leases - {lid} && OnRemove(s, lid).nextSerial == s.nextSerial
  {
    if lid !in s.leases { assert s.leases - {lid} == s.leases; }
  }

  lemma AddLeases(s: State, lid: LeaseKey, isNew: bool, at: Option<int>, checkIn: int)
    ensures var t := OnAdd(s, lid, isNew, at, checkIn);
            t.leases == s.leases[lid := Monitor(lid, s.nextSerial)] && t.nextSerial == s.nextSerial + 1
  {}

  lemma StepLeases(s: State, e: Event)
    requires Backed(s)
    ensures Step(s, e).leases == LeasesAfter(s, e)
    ensures Step(s, e).nextSerial == s.nextSerial + if e.AddMonitor? then 1 else 0
  {
    if Enabled(s, e) {
      match e
      case AddMonitor(lid, isNew, now, firstIn, checkIn) =>
        AddLeases(s, lid, isNew, FirstWithdrawal(s.period, isNew, now, firstIn), checkIn);
      case RemoveMonitor(lid) => RemoveLeases(s, lid);
      case CheckDone(check, outcome, published, now) => CheckLeases(s, check, outcome, published, now);
      case WithdrawDone(result, published) => ResultLeases(s, result, published);
      case _ =>
    }
  }

  lemma {:induction false} RunCurrent(period: int, es: seq<Event>, lid: LeaseKey)
    ensures After(period, es).nextSerial == Adds(es)
    ensures lid in After(period, es).leases <==> Current(es, lid).Some?
    ensures lid in After(period, es).leases ==> After(period, es).leases[lid] == Current(es, lid).value
  {
    if es != [] {
      var front := es[..|es| - 1];
      RunCurrent(period, front, lid);
      Facts(period, front);
      StepLeases(After(period, front), es[|es| - 1]);
    }
  }

  /** The lease's monitor, unless its closure was published. */
  ghost function Watched(period: int, es: seq<Event>, lid: LeaseKey): Option<Monitor> {
    var m := Current(es, lid);
    if m.Some? && ReportedClosed(After(period, es).log, m.value) then None else m
  }

  /** In every run a lease's monitor is the one added last and not removed since, and results are for it as long as its
      closure is not published. */
  lemma {:induction false} WatchedExactly(period: int, es: seq<Event>, lid: LeaseKey)
    ensures var s := After(period, es);
            && (Watching(s, lid) <==> Watched(period, es, lid).Some?)
            && (Watching(s, lid) ==> s.leases[lid] == Watched(period, es, lid).value)
  {
    RunCurrent(period, es, lid);
    Facts(period, es);
  }

  // ---- What an event changes about a monitor ----

  /** A transaction of this monitor's withdrawal alone failed, and not for a closed escrow. */
  ghost predicate LoneFailure(s: State, e: Event, m: Monitor) {
    e.WithdrawDone? && s.inFlight == [m] && !e.result.TxOk? && !IsEscrowClosed(e.result)
  }

  ghost predicate Asks(s: State, e: Event, m: Monitor)
    requires m in s.states
  {
    Reaches(s, e, m) && Answered(e.outcome) && Wants(s.period, e.check, e.outcome, s.states[m].retryWithdraw)
  }

  ghost predicate Rearms(s: State, e: Event, m: Monitor) {
    Reaches(s, e, m) && !(e.outcome.LeaseGone? && e.published)
  }

  /** The monitor's schedule, retry mark and timer after the event. */
  ghost predicate Changed(s: State, e: Event, m: Monitor, l: LeaseState)
    requires m in s.states
  {
    && l.scheduledWithdrawAt == (if Asks(s, e, m) then Some(e.now + s.period) else s.states[m].scheduledWithdrawAt)
    && l.tm == (if Rearms(s, e, m) then Some(s.nextTimer) else s.states[m].tm)
    && l.retryWithdraw == if Asks(s, e, m) && !s.states[m].withdrawing then false
                          else s.states[m].retryWithdraw || (LoneFailure(s, e, m) && IsLive(s, m))
  }

  lemma AnswerChanges(s: State, m: Monitor, check: Check, outcome: Outcome, published: bool, now: int)
    requires m in s.states && Answered(outcome)
    ensures var t := Handled(s, m, check, outcome, published, now);
            var wants := Wants(s.period, check, outcome, s.states[m].retryWithdraw);
            && t.states.Keys == s.states.Keys
            && t.states[m].scheduledWithdrawAt
               == (if wants then Some(now + s.period) else s.states[m].scheduledWithdrawAt)
            && t.states[m].tm == Some(s.nextTimer)
            && t.states[m].retryWithdraw == (s.states[m].retryWithdraw && !(wants && !s.states[m].withdrawing))
  {
    SendLeases(Queued(Rearmed(s, m, check, outcome, now), m));
  }

  lemma HandledOthers(s: State, m: Monitor, check: Check, outcome: Outcome, published: bool, now: int, n: Monitor)
    requires m in s.states && n in s.states && n != m
    ensures var t := Handled(s, m, check, outcome, published, now);
            n in t.states && t.states[n] == s.states[n]
  {
    if Answered(outcome) { SendLeases(Queued(Rearmed(s, m, check, outcome, now), m)); }
  }

  lemma HandledChanges(s: State, m: Monitor, check: Check, outcome: Outcome, published: bool, now: int)
    requires m in s.states && !Answered(outcome)
    ensures var t := Handled(s, m, check, outcome, published, now);
            && m in t.states
            && t.states[m].scheduledWithdrawAt == s.states[m].scheduledWithdrawAt
            && t.states[m].retryWithdraw == s.states[m].retryWithdraw
            && t.states[m].tm == if outcome.LeaseGone? && published then s.states[m].tm else Some(s.nextTimer)
  {}

  lemma AnswerReachedChanges(s: State, e: Event, m: Monitor)
    requires Reaches(s, e, m) && Answered(e.outcome)
    ensures m in Step(s, e).states && Changed(s, e, m, Step(s, e).states[m])
  {
    AnswerChanges(s.(running := s.running - multiset{e.check}), m, e.check, e.outcome, e.published, e.now);
  }

  lemma ReachedChanges(s: State, e: Event, m: Monitor)
    requires Reaches(s, e, m)
    ensures m in Step(s, e).states && Changed(s, e, m, Step(s, e).states[m])
  {
    if Answered(e.outcome) {
      AnswerReachedChanges(s, e, m);
    } else {
      HandledChanges(s.(running := s.running - multiset{e.check}), m, e.check, e.outcome, e.published, e.now);
    }
  }

  lemma CheckChanges(s: State, e: Event, m: Monitor)
    requires e.CheckDone? && e.check in s.running && m in s.states
    ensures m in Step(s, e).states && Changed(s, e, m, Step(s, e).states[m])
  {
    if Reaches(s, e, m) {
      ReachedChanges(s, e, m);
    } else if Watching(s, e.check.lid) {
      var t := s.(running := s.running - multiset{e.check});
      HandledOthers(t, s.leases[e.check.lid], e.check, e.outcome, e.published, e.now, m);
    }
  }

  lemma LandedChanges(s: State, m: Monitor)
    requires m in s.states
    ensures var t := Landed(s);
            m in t.states && t.states[m].(withdrawing := false) == s.states[m].(withdrawing := false)
  {}

  lemma RefusedChanges(s: State, n: Monitor, err: TxResult, published: bool, m: Monitor)
    requires m in s.states && n in s.states
    ensures var t := Refused(s, n, err, published);
            && m in t.states
            && t.states[m].(withdrawing := false, closed := false) ==
               s.states[m].(withdrawing := false, closed := false,
                            retryWithdraw := || s.states[m].retryWithdraw
                                             || (n == m && IsLive(s, n) && !IsEscrowClosed(err)))
  {}

  lemma ConcludedChanges(s: State, e: Event, m: Monitor)
    requires e.WithdrawDone? && s.inFlight != [] && s.inFlight[0] in s.states && m in s.states
    ensures var t := Concluded(s, e.result, e.published); m in t.states && Changed(s, e, m, t.states[m])
  {
    if e.result.TxOk? {
      LandedChanges(s, m);
    } else if |s.inFlight| == 1 {
      RefusedChanges(s, s.inFlight[0], e.result, e.published, m);
      assert s.inFlight == [s.inFlight[0]];
    }
  }

  lemma ResultChanges(s: State, e: Event, m: Monitor)
    requires e.WithdrawDone? && s.inFlight != [] && s.inFlight[0] in s.states && m in s.states
    ensures m in Step(s, e).states && Changed(s, e, m, Step(s, e).states[m])
  {
    ConcludedChanges(s, e, m);
    SendLeases(Concluded(s, e.result, e.published));
  }

  lemma AddChanges(s: State, e: Event, m: Monitor)
    requires Backed(s) && e.AddMonitor? && m in s.states
    ensures m in Step(s, e).states && Step(s, e).states[m] == s.states[m]
  {}

  lemma StepChanges(s: State, e: Event, m: Monitor)
    requires Backed(s) && m in s.states
    ensures m in Step(s, e).states && Changed(s, e, m, Step(s, e).states[m])
  {
    if Enabled(s, e) {
      if e.CheckDone? {
        CheckChanges(s, e, m);
      } else if e.WithdrawDone? {
        ResultChanges(s, e, m);
      } else if e.AddMonitor? {
        AddChanges(s, e, m);
      }
    } else {
      assert !LoneFailure(s, e, m);
    }
  }

  /** The state of a monitor just added. */
  lemma NewState(s: State, e: Event, m: Monitor)
    requires m !in s.states && m in Step(s, e).states
    ensures e.AddMonitor? && m == Monitor(e.lid, s.nextSerial)
    ensures Step(s, e).states[m] == LeaseState(if e.isNew then None else Some(s.nextTimer),
                                               FirstDue(s.period, e.isNew, e.now, e.firstIn), false, false, false)
  {
    if Enabled(s, e) {
      if e.CheckDone? {
        CheckKeys(s, e.check, e.outcome, e.published, e.now);
      } else if e.WithdrawDone? {
        ResultKeys(s, e.result, e.published);
      }
    }
  }

  /** When the first withdrawal of a new monitor is due. */
  ghost function FirstDue(period: int, isNew: bool, now: int, firstIn: int): Option<int> {
    if period <= 0 then None else if isNew then Some(now + period) else Some(now + firstIn)
  }

  lemma CheckKeys(s: State, check: Check, outcome: Outcome, published: bool, now: int)
    requires check in s.running
    ensures OnCheck(s, check, outcome, published, now).states.Keys == s.states.Keys
  {
    if Watching(s, check.lid) {
      var t, m := s.(running := s.running - multiset{check}), s.leases[check.lid];
      if Answered(outcome) { AnswerChanges(t, m, check, outcome, published, now); }
    }
  }

  lemma ConcludedKeys(s: State, result: TxResult, published: bool)
    requires s.inFlight != [] && s.inFlight[0] in s.states
    ensures Concluded(s, result, published).states.Keys == s.states.Keys
  {
    if result.TxOk? {
      LandedKeys(s);
    } else if |s.inFlight| == 1 {
      RefusedKeys(s, s.inFlight[0], result, published);
    }
  }

  lemma RefusedKeys(s: State, m: Monitor, err: TxResult, published: bool)
    requires m in s.states
    ensures Refused(s, m, err, published).states.Keys == s.states.Keys
  {}

  lemma LandedKeys(s: State)
    ensures Landed(s).states.Keys == s.states.Keys
  {}

  lemma ResultKeys(s: State, result: TxResult, published: bool)
    requires s.inFlight != [] && s.inFlight[0] in s.states
    ensures OnWithdrawResult(s, result, published).states.Keys == s.states.Keys
  {
    ConcludedKeys(s, result, published);
    SendLeases(Concluded(s, result, published));
  }

  // ---- What the last event did ----

  /** From the first state to the second, the action was added to the record. */
  ghost predicate Added(s: State, t: State, a: Action) {
    exists i | |s.log| <= i < |t.log| :: t.log[i] == a
  }

  lemma AddedIff(s: State, t: State, done: seq<Action>, a: Action)
    requires t.log == s.log + done
    ensures Added(s, t, a) <==> a in done
  {
    if Added(s, t, a) {
      var i :| |s.log| <= i < |t.log| && t.log[i] == a;
      assert done[i - |s.log|] == a;
    }
    if a in done {
      var i :| 0 <= i < |done| && done[i] == a;
      assert t.log[|s.log| + i] == a;
    }
  }

  lemma DoingQueues(s: State, e: Event, live: set<Monitor>, m: Monitor)
    ensures Queue(m) in StepDoing(s, e, live) <==> m in s.states && Asks(s, e, m) && !s.states[m].withdrawing
  {}

  lemma StepQueues(s: State, e: Event, m: Monitor)
    ensures Added(s, Step(s, e), Queue(m)) <==> m in s.states && Asks(s, e, m) && !s.states[m].withdrawing
  {
    StepDoes(s, e);
    AddedIff(s, Step(s, e), StepDoing(s, e, Live(Step(s, e))), Queue(m));
    DoingQueues(s, e, Live(Step(s, e)), m);
  }

  /** A monitor that is current and not reported closed was so before. */
  lemma LiveBefore(s: State, e: Event, m: Monitor)
    requires Backed(s) && ClosedIsTold(s) && ClosedIsTold(Step(s, e))
    requires m in s.states && m in Step(s, e).states && IsLive(Step(s, e), m)
    ensures IsLive(s, m)
  {
    StepLeases(s, e);
    StepDoes(s, e);
    ReportStays(s.log, Step(s, e).log, m);
  }

  lemma ReportStays(log: seq<Action>, longer: seq<Action>, m: Monitor)
    requires log <= longer
    ensures ReportedClosed(log, m) ==> ReportedClosed(longer, m)
  {}

  // ---- Failed withdrawals ----

  /** A withdrawal of the monitor alone failed, and not for a closed escrow, since the last one was queued. */
  ghost predicate FailedSince(period: int, es: seq<Event>, m: Monitor) {
    es != [] && var front := es[..|es| - 1];
    && !Added(After(period, front), After(period, es), Queue(m))
    && (LoneFailure(After(period, front), es[|es| - 1], m) || FailedSince(period, front, m))
  }

  ghost predicate RetryTold(s: State, m: Monitor, failed: bool) {
    && (m !in s.states ==> !failed)
    && (m in s.states && IsLive(s, m) ==> (s.states[m].retryWithdraw <==> failed))
  }

  lemma StepRetry(s: State, e: Event, m: Monitor, failed: bool)
    requires Backed(s) && ClosedIsTold(s) && ClosedIsTold(Step(s, e)) && RetryTold(s, m, failed)
    ensures RetryTold(Step(s, e), m, !Added(s, Step(s, e), Queue(m)) && (LoneFailure(s, e, m) || failed))
  {
    StepQueues(s, e, m);
    if m in s.states {
      StepChanges(s, e, m);
      if IsLive(Step(s, e), m) { LiveBefore(s, e, m); }
    } else if m in Step(s, e).states {
      NewState(s, e, m);
    }
  }

  lemma {:induction false} RunRetry(period: int, es: seq<Event>, m: Monitor)
    ensures RetryTold(After(period, es), m, FailedSince(period, es, m))
  {
    if es != [] {
      var front := es[..|es| - 1];
      RunRetry(period, front, m);
      Facts(period, front);
      Facts(period, es);
      StepRetry(After(period, front), es[|es| - 1], m, FailedSince(period, front, m));
    }
  }

  // ---- When a withdrawal is due ----

  /** The event is an answered check of the monitor that asks for a withdrawal. */
  ghost predicate AsksFor(period: int, es: seq<Event>, e: Event, m: Monitor) {
    && e.CheckDone? && e.check in After(period, es).running && Answered(e.outcome)
    && Watched(period, es, e.check.lid) == Some(m)
    && Wants(period, e.check, e.outcome, FailedSince(period, es, m))
  }

  lemma {:induction false} AsksIff(period: int, es: seq<Event>, e: Event, m: Monitor)
    requires m in After(period, es).states
    ensures Asks(After(period, es), e, m) <==> AsksFor(period, es, e, m)
  {
    Facts(period, es);
    RunRetry(period, es, m);
    if e.CheckDone? { WatchedExactly(period, es, e.check.lid); }
  }

  /** When the monitor's next withdrawal is due: as its addition set it, and a period after each check that asked for
      one. */
  ghost function DueAt(period: int, es: seq<Event>, m: Monitor): Option<int> {
    if es == [] then None
    else
      var front, e := es[..|es| - 1], es[|es| - 1];
      NextDue(period, e, m, Adds(front), DueAt(period, front, m), AsksFor(period, front, e, m))
  }

  ghost function NextDue(period: int, e: Event, m: Monitor, serial: nat, was: Option<int>, asks: bool): Option<int> {
    if e.AddMonitor? && m == Monitor(e.lid, serial) then FirstDue(period, e.isNew, e.now, e.firstIn)
    else if e.CheckDone? && asks then Some(e.now + period)
    else was
  }

  ghost predicate DueTold(s: State, m: Monitor, at: Option<int>) {
    m in s.states ==> s.states[m].scheduledWithdrawAt == at
  }

  lemma OldDue(s: State, e: Event, m: Monitor, asks: bool)
    requires Backed(s) && m in s.states && (asks <==> Asks(s, e, m))
    ensures DueTold(Step(s, e), m, NextDue(s.period, e, m, s.nextSerial, s.states[m].scheduledWithdrawAt, asks))
  {
    StepChanges(s, e, m);
  }

  lemma NewDue(s: State, e: Event, m: Monitor, was: Option<int>, asks: bool)
    requires m !in s.states
    ensures DueTold(Step(s, e), m, NextDue(s.period, e, m, s.nextSerial, was, asks))
  {
    if m in Step(s, e).states { NewState(s, e, m); }
  }

  lemma StepDue(s: State, e: Event, m: Monitor, was: Option<int>, asks: bool)
    requires Backed(s) && DueTold(s, m, was) && (m in s.states ==> (asks <==> Asks(s, e, m)))
    ensures DueTold(Step(s, e), m, NextDue(s.period, e, m, s.nextSerial, was, asks))
  {
    if m in s.states { OldDue(s, e, m, asks); } else { NewDue(s, e, m, was, asks); }
  }

  lemma {:induction false} RunDue(period: int, es: seq<Event>, m: Monitor)
    ensures DueTold(After(period, es), m, DueAt(period, es, m))
  {
    if es != [] {
      var front, e := es[..|es| - 1], es[|es| - 1];
      RunDue(period, front, m);
      Facts(period, front);
      RunCurrent(period, front, m.lid);
      if m in After(period, front).states { AsksIff(period, front, e, m); }
      StepDue(After(period, front), e, m, DueAt(period, front, m), AsksFor(period, front, e, m));
    }
  }

  // ---- The checks that follow ----

  /** The check after one that got an answer: for the scheduled withdrawal, at its time, if that comes no later than the
      next check would and no withdrawal is asked for now. */
  ghost function Following(lid: LeaseKey, asks: bool, due: Option<int>, now: int, checkAfter: int): Check {
    if !asks && due.Some? && due.value <= now + checkAfter then Check(lid, true, due.value - now)
    else Check(lid, false, checkAfter)
  }

  /** The check an event arms a timer for: the first one of a monitor found at start-up, or the one after a check, which
      after a failure is the same again in a minute. */
  ghost function NextCheck(e: Event, reaches: bool, asks: bool, due: Option<int>): Option<Check> {
    match e
    case AddMonitor(lid, isNew, _, _, checkIn) => if isNew then None else Some(Check(lid, false, checkIn))
    case CheckDone(check, outcome, published, now) =>
      if !reaches || (outcome.LeaseGone? && published) then None
      else if Answered(outcome) then Some(Following(check.lid, asks, due, now, outcome.checkAfter))
      else Some(Check(check.lid, check.scheduledWithdraw, RETRY_CHECK_AFTER))
    case _ => None
  }

  /** The timers armed after an event, and the checks running. */
  ghost function ArmedAfter(s: State, e: Event, stopped: Option<TimerID>, next: Option<Check>): map<TimerID, Check> {
    var left := if e.TimerFires? then s.armed - {e.t}
                else if e.RemoveMonitor? && stopped.Some? then s.armed - {stopped.value}
                else s.armed;
    if next.Some? then left[s.nextTimer := next.value] else left
  }

  ghost function RunningAfter(s: State, e: Event): multiset<Check>
    requires Enabled(s, e)
  {
    match e
    case AddMonitor(lid, isNew, _, _, _) => if isNew then s.running + multiset{Check(lid, false, 0)} else s.running
    case TimerFires(t) => s.running + multiset{s.armed[t]}
    case CheckDone(check, _, _, _) => s.running - multiset{check}
    case CheckDropped(check) => s.running - multiset{check}
    case _ => s.running
  }

  lemma SendTimers(s: State)
    ensures var t := SendWithdrawals(s); t.armed == s.armed && t.running == s.running && t.nextTimer == s.nextTimer
  {
    SendKeeps(s);
    assert Timers(SendWithdrawals(s)).0 == Timers(s).0 && Timers(SendWithdrawals(s)).1 == Timers(s).1;
  }

  lemma HandledTimers(s: State, m: Monitor, check: Check, outcome: Outcome, published: bool, now: int)
    requires m in s.states && check.lid == m.lid
    ensures var t := Handled(s, m, check, outcome, published, now);
            var next := NextCheck(CheckDone(check, outcome, published, now), true,
                                  Wants(s.period, check, outcome, s.states[m].retryWithdraw),
                                  s.states[m].scheduledWithdrawAt);
            && t.running == s.running
            && t.armed == (if next.Some? then s.armed[s.nextTimer := next.value] else s.armed)
            && t.nextTimer == s.nextTimer + if next.Some? then 1 else 0
  {
    if Answered(outcome) { SendTimers(Queued(Rearmed(s, m, check, outcome, now), m)); }
  }

  ghost predicate TimersFollow(s: State, e: Event, t: State, stopped: Option<TimerID>, next: Option<Check>)
    requires Enabled(s, e)
  {
    && t.armed == ArmedAfter(s, e, stopped, next)
    && t.running == RunningAfter(s, e)
    && t.nextTimer == s.nextTimer + if next.Some? then 1 else 0
  }

  lemma CheckTimers(s: State, e: Event)
    requires Backed(s) && e.CheckDone? && Enabled(s, e)
    ensures !Watching(s, e.check.lid) ==> TimersFollow(s, e, Step(s, e), None, None)
    ensures Watching(s, e.check.lid) ==>
              var m := s.leases[e.check.lid];
              TimersFollow(s, e, Step(s, e), None,
                           NextCheck(e, true, Wants(s.period, e.check, e.outcome, s.states[m].retryWithdraw),
                                     s.states[m].scheduledWithdrawAt))
  {
    if Watching(s, e.check.lid) {
      var t := s.(running := s.running - multiset{e.check});
      HandledTimers(t, s.leases[e.check.lid], e.check, e.outcome, e.published, e.now);
    }
  }

  lemma OtherTimers(s: State, e: Event, stopped: Option<TimerID>)
    requires Backed(s) && !e.CheckDone? && Enabled(s, e)
    requires e.RemoveMonitor? ==>
               stopped == if e.lid in s.leases then s.states[s.leases[e.lid]].tm else None
    ensures TimersFollow(s, e, Step(s, e), stopped, NextCheck(e, false, false, None))
  {
    if e.WithdrawDone? {
      ResultTimers(s, e.result, e.published);
    } else if e.RemoveMonitor? {
      RemoveTimers(s, e.lid, stopped);
    } else if e.AddMonitor? {
      AddTimers(s, e.lid, e.isNew, FirstWithdrawal(s.period, e.isNew, e.now, e.firstIn), e.checkIn);
    }
  }

  lemma RemoveTimers(s: State, lid: LeaseKey, stopped: Option<TimerID>)
    requires Backed(s) && stopped == if lid in s.leases then s.states[s.leases[lid]].tm else None
    ensures var t := OnRemove(s, lid);
            && t.armed == (if stopped.Some? then s.armed - {stopped.value} else s.armed)
            && t.running == s.running && t.nextTimer == s.nextTimer
  {}

  lemma AddTimers(s: State, lid: LeaseKey, isNew: bool, at: Option<int>, checkIn: int)
    ensures var t := OnAdd(s, lid, isNew, at, checkIn);
            if isNew then
              && t.armed == s.armed && t.nextTimer == s.nextTimer
              && t.running == s.running + multiset{Check(lid, false, 0)}
            else
              && t.armed == s.armed[s.nextTimer := Check(lid, false, checkIn)]
              && t.running == s.running && t.nextTimer == s.nextTimer + 1
  {}

  lemma ConcludedTimers(s: State, result: TxResult, published: bool)
    requires s.inFlight != [] && s.inFlight[0] in s.states
    ensures var t := Concluded(s, result, published);
            t.armed == s.armed && t.running == s.running && t.nextTimer == s.nextTimer
  {}

  lemma ResultTimers(s: State, result: TxResult, published: bool)
    requires s.inFlight != [] && s.inFlight[0] in s.states
    ensures var t := OnWithdrawResult(s, result, published);
            t.armed == s.armed && t.running == s.running && t.nextTimer == s.nextTimer
  {
    ConcludedTimers(s, result, published);
    SendTimers(Concluded(s, result, published));
  }

  /** The timer armed last for the monitor. */
  ghost function TimerOf(period: int, es: seq<Event>, m: Monitor): Option<TimerID> {
    if es == [] then None
    else
      var front, e := es[..|es| - 1], es[|es| - 1];
      if Added(After(period, front), After(period, es), Arm(m)) then Some(After(period, front).nextTimer)
      else TimerOf(period, front, m)
  }

  ghost predicate TimerTold(s: State, m: Monitor, tm: Option<TimerID>) {
    if m in s.states then s.states[m].tm == tm else tm.None?
  }

  lemma DoingArms(s: State, e: Event, live: set<Monitor>, m: Monitor)
    requires m in s.states && Backed(s)
    ensures Arm(m) in StepDoing(s, e, live) <==> Rearms(s, e, m)
  {}

  lemma DoingArmsNew(s: State, e: Event, live: set<Monitor>, m: Monitor)
    requires m !in s.states
    ensures Arm(m) in StepDoing(s, e, live) <==> e.AddMonitor? && m == Monitor(e.lid, s.nextSerial) && !e.isNew
  {}

  lemma StepTimer(s: State, e: Event, m: Monitor, was: Option<TimerID>)
    requires Backed(s) && TimerTold(s, m, was)
    ensures TimerTold(Step(s, e), m, if Added(s, Step(s, e), Arm(m)) then Some(s.nextTimer) else was)
  {
    StepDoes(s, e);
    AddedIff(s, Step(s, e), StepDoing(s, e, Live(Step(s, e))), Arm(m));
    if m in s.states {
      DoingArms(s, e, Live(Step(s, e)), m);
      StepChanges(s, e, m);
    } else {
      DoingArmsNew(s, e, Live(Step(s, e)), m);
      if m in Step(s, e).states { NewState(s, e, m); } else if e.AddMonitor? { AddsState(s, e); }
    }
  }

  lemma AddsState(s: State, e: Event)
    requires e.AddMonitor?
    ensures Monitor(e.lid, s.nextSerial) in Step(s, e).states
  {}

  lemma {:induction false} RunTimer(period: int, es: seq<Event>, m: Monitor)
    ensures TimerTold(After(period, es), m, TimerOf(period, es, m))
  {
    if es != [] {
      var front := es[..|es| - 1];
      RunTimer(period, front, m);
      Facts(period, front);
      StepTimer(After(period, front), es[|es| - 1], m, TimerOf(period, front, m));
    }
  }

  // ---- Theorems about every run ----

  /** The withdrawal of the monitor is queued or in flight. */
  ghost predicate Outstanding(period: int, es: seq<Event>, m: Monitor) {
    Occurs(After(period, es), m) > 0
  }

  /** Everything an event makes the loop do, in terms of what came before it. */
  ghost function Doing(period: int, es: seq<Event>, e: Event): seq<Action> {
    var s := After(period, es);
    if !Enabled(s, e) then []
    else match e
      case AddMonitor(lid, isNew, _, _, _) => If(!isNew, Arm(Monitor(lid, Adds(es))))
      case CheckDone(check, outcome, published, _) =>
        var m := Watched(period, es, check.lid);
        if m.None? then []
        else CheckDoes(s, m.value, check, outcome, published,
                       AsksFor(period, es, e, m.value) && !Outstanding(period, es, m.value))
      case WithdrawDone(result, published) => ResultDoing(s, result, published, Live(After(period, es + [e])))
      case _ => []
  }

  lemma {:induction false} CheckDoing(period: int, es: seq<Event>, e: Event)
    requires e.CheckDone? && Enabled(After(period, es), e)
    ensures StepDoing(After(period, es), e, Live(After(period, es + [e]))) == Doing(period, es, e)
  {
    var s := After(period, es);
    WatchedExactly(period, es, e.check.lid);
    if Watching(s, e.check.lid) {
      var m := s.leases[e.check.lid];
      Facts(period, es);
      AsksIff(period, es, e, m);
      assert IsLive(s, m);
    }
  }

  /** In every run an event makes the loop do exactly what the events before it call for: closures published with the
      reason the chain gave, timers armed, withdrawals queued and transactions sent. */
  lemma {:induction false} DoesExactly(period: int, es: seq<Event>, e: Event)
    ensures After(period, es + [e]).log == After(period, es).log + Doing(period, es, e)
  {
    RunOneMore(period, es, e);
    StepDoes(After(period, es), e);
    if e.CheckDone? && Enabled(After(period, es), e) {
      CheckDoing(period, es, e);
    } else if e.AddMonitor? {
      RunCurrent(period, es, e.lid);
    }
  }

  /** In every run a withdrawal is queued if and only if a check of the lease's monitor, current and not reported
      closed, got an answer, withdrawals are on, none of it is queued or in flight, and the lease is out of funds, or
      the check was made for the scheduled withdrawal, or one failed since the last was queued. */
  lemma {:induction false} QueuedIff(period: int, es: seq<Event>, e: Event, m: Monitor)
    ensures Added(After(period, es), After(period, es + [e]), Queue(m))
       <==> AsksFor(period, es, e, m) && !Outstanding(period, es, m)
  {
    var s := After(period, es);
    RunOneMore(period, es, e);
    StepQueues(s, e, m);
    Facts(period, es);
    if e.CheckDone? { WatchedExactly(period, es, e.check.lid); }
    if m in s.states {
      AsksIff(period, es, e, m);
      assert Asks(s, e, m) ==> IsLive(s, m);
    }
  }

  /** The check an event is followed by, in terms of what came before it. */
  ghost function NextFor(period: int, es: seq<Event>, e: Event): Option<Check> {
    if !e.CheckDone? then NextCheck(e, false, false, None)
    else
      var m := Watched(period, es, e.check.lid);
      if m.None? then None
      else NextCheck(e, true, AsksFor(period, es, e, m.value), DueAt(period, es, m.value))
  }

  /** The timer a removal stops. */
  ghost function StoppedBy(period: int, es: seq<Event>, e: Event): Option<TimerID> {
    if e.RemoveMonitor? && Current(es, e.lid).Some? then TimerOf(period, es, Current(es, e.lid).value) else None
  }

  lemma {:induction false} CheckFollowed(period: int, es: seq<Event>, e: Event)
    requires e.CheckDone? && Enabled(After(period, es), e)
    ensures TimersFollow(After(period, es), e, After(period, es + [e]), None, NextFor(period, es, e))
  {
    var s := After(period, es);
    RunOneMore(period, es, e);
    Facts(period, es);
    CheckTimers(s, e);
    WatchedExactly(period, es, e.check.lid);
    if Watching(s, e.check.lid) {
      var m := s.leases[e.check.lid];
      AsksIff(period, es, e, m);
      RunDue(period, es, m);
      NextSame(e, Wants(s.period, e.check, e.outcome, s.states[m].retryWithdraw), AsksFor(period, es, e, m),
               DueAt(period, es, m));
    }
  }

  lemma NextSame(e: Event, wants: bool, asks: bool, due: Option<int>)
    requires e.CheckDone? && (Answered(e.outcome) ==> (wants <==> asks))
    ensures NextCheck(e, true, wants, due) == NextCheck(e, true, asks, due)
  {}

  /** In every run an event arms exactly the check that the events before it call for: after one that got an answer, for
      the scheduled withdrawal and at its time if that comes no later than the next check would; after one that did not,
      the same again in a minute.  A removal stops the monitor's last timer; a timer that fires starts its check. */
  lemma {:induction false} ChecksExactly(period: int, es: seq<Event>, e: Event)
    requires Enabled(After(period, es), e)
    ensures TimersFollow(After(period, es), e, After(period, es + [e]), StoppedBy(period, es, e),
                         NextFor(period, es, e))
  {
    var s := After(period, es);
    if e.CheckDone? {
      CheckFollowed(period, es, e);
    } else {
      RunOneMore(period, es, e);
      Facts(period, es);
      if e.RemoveMonitor? {
        RunCurrent(period, es, e.lid);
        if e.lid in s.leases { RunTimer(period, es, s.leases[e.lid]); }
      }
      OtherTimers(s, e, StoppedBy(period, es, e));
    }
  }

  // ---- The queues ----

  /** The queues and the transaction in flight once these withdrawals wait. */
  ghost function Left(alone: seq<Monitor>, due: seq<Monitor>, inFlight: seq<Monitor>, cancelled: bool,
                      live: set<Monitor>): (seq<Monitor>, seq<Monitor>, seq<Monitor>)
  {
    if inFlight != [] || cancelled then (alone, due, inFlight)
    else
      var p := Pick(alone, due, live);
      (p.alone, p.due, p.batch)
  }

  ghost function QueuesOf(s: State): (seq<Monitor>, seq<Monitor>, seq<Monitor>) {
    (s.alone, s.due, s.inFlight)
  }

  lemma SendLeft(s: State)
    ensures QueuesOf(SendWithdrawals(s)) == Left(s.alone, s.due, s.inFlight, s.cancelled, Live(s))
  {
    if s.inFlight == [] && !s.cancelled { DispatchLeft(s, Pick(s.alone, s.due, Live(s))); }
  }

  lemma DispatchLeft(s: State, p: Picked<Monitor>)
    requires s.inFlight == []
    ensures QueuesOf(Dispatched(s, p)) == (p.alone, p.due, p.batch)
  {}

  lemma HandledLeft(s: State, m: Monitor, check: Check, outcome: Outcome, published: bool, now: int)
    requires m in s.states
    ensures var queue := Answered(outcome) && Wants(s.period, check, outcome, s.states[m].retryWithdraw)
                         && !s.states[m].withdrawing;
            QueuesOf(Handled(s, m, check, outcome, published, now)) ==
            if queue then Left(s.alone, s.due + [m], s.inFlight, s.cancelled, Live(s)) else QueuesOf(s)
  {
    if Answered(outcome) {
      var q := Queued(Rearmed(s, m, check, outcome, now), m);
      assert Live(q) == Live(s);
      SendLeft(q);
    }
  }

  /** The queues after an event. */
  ghost function QueuesAfter(period: int, es: seq<Event>, e: Event): (seq<Monitor>, seq<Monitor>, seq<Monitor>) {
    var s := After(period, es);
    if !Enabled(s, e) then QueuesOf(s)
    else match e
      case CheckDone(check, _, _, _) =>
        var m := Watched(period, es, check.lid);
        if m.Some? && AsksFor(period, es, e, m.value) && !Outstanding(period, es, m.value)
        then Left(s.alone, s.due + [m.value], s.inFlight, s.cancelled, Live(s)) else QueuesOf(s)
      case WithdrawDone(result, _) =>
        Left(if !result.TxOk? && |s.inFlight| > 1 then s.alone + s.inFlight else s.alone, s.due, [], s.cancelled,
             Live(After(period, es + [e])))
      case _ => QueuesOf(s)
  }

  lemma CheckLeft(s: State, e: Event)
    requires e.CheckDone? && e.check in s.running
    ensures !Watching(s, e.check.lid) ==> QueuesOf(Step(s, e)) == QueuesOf(s)
    ensures Watching(s, e.check.lid) ==>
              var m := s.leases[e.check.lid];
              QueuesOf(Step(s, e)) ==
              if Asks(s, e, m) && !s.states[m].withdrawing
              then Left(s.alone, s.due + [m], s.inFlight, s.cancelled, Live(s)) else QueuesOf(s)
  {
    if Watching(s, e.check.lid) {
      var t := s.(running := s.running - multiset{e.check});
      assert Live(t) == Live(s);
      HandledLeft(t, s.leases[e.check.lid], e.check, e.outcome, e.published, e.now);
    }
  }

  lemma ResultLeft(s: State, e: Event)
    requires e.WithdrawDone? && Enabled(s, e)
    ensures QueuesOf(Step(s, e)) ==
            Left(if !e.result.TxOk? && |s.inFlight| > 1 then s.alone + s.inFlight else s.alone, s.due, [], s.cancelled,
                 Live(Step(s, e)))
  {
    ConcludedDoes(s, e.result, e.published);
    SendLeft(Concluded(s, e.result, e.published));
    SendDoes(Concluded(s, e.result, e.published));
  }

  lemma OtherLeft(s: State, e: Event)
    requires !e.CheckDone? && !e.WithdrawDone?
    ensures QueuesOf(Step(s, e)) == QueuesOf(s)
  {}

  /** In every run the queues are exactly what the events leave in them: a withdrawal queued joins the due ones, those
      of a failed transaction join the ones to send alone, in order, and a transaction takes the next ones away. */
  lemma {:induction false} QueuesExactly(period: int, es: seq<Event>, e: Event)
    ensures QueuesOf(After(period, es + [e])) == QueuesAfter(period, es, e)
  {
    var s := After(period, es);
    RunOneMore(period, es, e);
    if !e.CheckDone? && !e.WithdrawDone? {
      OtherLeft(s, e);
    } else if Enabled(s, e) && e.WithdrawDone? {
      ResultLeft(s, e);
    } else if Enabled(s, e) {
      CheckLeft(s, e);
      CheckQueues(period, es, e);
    }
  }

  lemma {:induction false} CheckQueues(period: int, es: seq<Event>, e: Event)
    requires e.CheckDone? && Enabled(After(period, es), e)
    ensures var s := After(period, es);
            && (Watching(s, e.check.lid) <==> Watched(period, es, e.check.lid).Some?)
            && (Watching(s, e.check.lid) ==>
                  var m := s.leases[e.check.lid];
                  && Watched(period, es, e.check.lid) == Some(m)
                  && (Asks(s, e, m) && !s.states[m].withdrawing
                      <==> AsksFor(period, es, e, m) && !Outstanding(period, es, m)))
  {
    var s := After(period, es);
    WatchedExactly(period, es, e.check.lid);
    if Watching(s, e.check.lid) {
      var m := s.leases[e.check.lid];
      Facts(period, es);
      AsksIff(period, es, e, m);
      assert IsLive(s, m);
    }
  }

  // ---- A scheduled withdrawal comes ----

  /** A check for the lease's scheduled withdrawal is armed or running. */
  ghost predicate ScheduledComing(s: State, lid: LeaseKey) {
    || (exists t | t in s.armed :: s.armed[t].lid == lid && s.armed[t].scheduledWithdraw)
    || (exists c | c in s.running :: c.lid == lid && c.scheduledWithdraw)
  }

  /** Timers are not used twice, and a monitor's timer is for a check of its lease. */
  ghost predicate TimersOwned(s: State) {
    && (forall t | t in s.armed :: t < s.nextTimer)
    && (forall m | m in s.states && s.states[m].tm.Some? && s.states[m].tm.value in s.armed ::
          s.armed[s.states[m].tm.value].lid == m.lid)
  }

  lemma {:induction false} TimerFacts(period: int, es: seq<Event>)
    ensures TimersOwned(After(period, es))
  {
    InitInv(period);
    RunKeeps(Init(period), es);
  }

  ghost predicate AnsweredFor(e: Event, lid: LeaseKey) {
    e.CheckDone? && e.check.lid == lid && Answered(e.outcome)
  }

  /** The timers after an event that neither answers a check of the lease, removes it nor ends the context. */
  lemma ComingStays(s: State, e: Event, t: State, lid: LeaseKey, stopped: Option<TimerID>, next: Option<Check>)
    requires Enabled(s, e) && TimersFollow(s, e, t, stopped, next) && TimersOwned(s) && ScheduledComing(s, lid)
    requires !e.CheckDropped? && (stopped.Some? && stopped.value in s.armed ==> s.armed[stopped.value].lid != lid)
    requires e.CheckDone? && e.check.lid == lid ==>
               next == Some(Check(lid, e.check.scheduledWithdraw, RETRY_CHECK_AFTER))
    ensures ScheduledComing(t, lid)
  {
    if exists i | i in s.armed :: s.armed[i].lid == lid && s.armed[i].scheduledWithdraw {
      var i :| i in s.armed && s.armed[i].lid == lid && s.armed[i].scheduledWithdraw;
      if e == TimerFires(i) {
        assert s.armed[i] in t.running;
      } else {
        assert i in t.armed && t.armed[i] == s.armed[i];
      }
    } else {
      var c :| c in s.running && c.lid == lid && c.scheduledWithdraw;
      if e.CheckDone? && e.check == c {
        assert t.armed[s.nextTimer] == next.value;
      } else {
        assert c in t.running;
      }
    }
  }

  lemma {:induction false} ScheduledStep(period: int, es: seq<Event>, e: Event, m: Monitor)
    requires var s := After(period, es);
             ScheduledComing(s, m.lid) && m in s.states && Enabled(s, e) && IsLive(s, m)
    requires var t := After(period, es + [e]); m in t.states && IsLive(t, m)
    requires !AnsweredFor(e, m.lid) && !e.CheckDropped?
    ensures ScheduledComing(After(period, es + [e]), m.lid)
  {
    var s, t := After(period, es), After(period, es + [e]);
    ChecksExactly(period, es, e);
    TimerFacts(period, es);
    Facts(period, es);
    RunOneMore(period, es, e);
    StepLeases(s, e);
    if e.CheckDone? && e.check.lid == m.lid {
      WatchedExactly(period, es, m.lid);
      if e.outcome.LeaseGone? && e.published { GoneIsClosed(s, e, m); }
    }
    if e.RemoveMonitor? { RemovalSpares(period, es, e.lid, m); }
    ComingStays(s, e, t, m.lid, StoppedBy(period, es, e), NextFor(period, es, e));
  }

  /** A removal of another lease stops none of this one's timers. */
  lemma {:induction false} RemovalSpares(period: int, es: seq<Event>, lid: LeaseKey, m: Monitor)
    requires lid != m.lid
    ensures var s, stopped := After(period, es), StoppedBy(period, es, RemoveMonitor(lid));
            stopped.Some? && stopped.value in s.armed ==> s.armed[stopped.value].lid != m.lid
  {
    TimerFacts(period, es);
    Facts(period, es);
    RunCurrent(period, es, lid);
    var c := Current(es, lid);
    if c.Some? { RunTimer(period, es, c.value); }
  }

  lemma GoneIsClosed(s: State, e: Event, m: Monitor)
    requires Reaches(s, e, m) && e.outcome.LeaseGone? && e.published
    ensures m in Step(s, e).states && Step(s, e).states[m].closed
  {}

  ghost predicate Alive(period: int, es: seq<Event>, m: Monitor) {
    m in After(period, es).states && IsLive(After(period, es), m)
  }

  lemma {:induction false} AliveBefore(period: int, es: seq<Event>, e: Event, m: Monitor)
    requires m in After(period, es).states && Alive(period, es + [e], m)
    ensures Alive(period, es, m)
  {
    Facts(period, es);
    Facts(period, es + [e]);
    RunOneMore(period, es, e);
    LiveBefore(After(period, es), e, m);
  }

  lemma {:induction false} KnownStays(period: int, es: seq<Event>, more: seq<Event>, m: Monitor)
    requires m in After(period, es).states
    ensures m in After(period, es + more).states
  {
    if more == [] {
      assert es + more == es;
    } else {
      var front, e := more[..|more| - 1], more[|more| - 1];
      KnownStays(period, es, front, m);
      KnownNext(period, es + front, e, m);
      assert es + front + [e] == es + more;
    }
  }

  lemma {:induction false} KnownNext(period: int, es: seq<Event>, e: Event, m: Monitor)
    requires m in After(period, es).states
    ensures m in After(period, es + [e]).states
  {
    Facts(period, es);
    RunOneMore(period, es, e);
    StepChanges(After(period, es), e, m);
  }

  lemma {:induction false} ScheduledRun(period: int, es: seq<Event>, more: seq<Event>, m: Monitor)
    requires ScheduledComing(After(period, es), m.lid) && m in After(period, es).states
    requires forall x | x in more :: !AnsweredFor(x, m.lid) && !x.CheckDropped?
    requires Alive(period, es + more, m)
    ensures ScheduledComing(After(period, es + more), m.lid)
  {
    if more == [] {
      assert es + more == es;
    } else {
      var front, e := more[..|more| - 1], more[|more| - 1];
      var mid := es + front;
      assert mid + [e] == es + more && e in more;
      KnownStays(period, es, front, m);
      AliveBefore(period, mid, e, m);
      ScheduledRun(period, es, front, m);
      RunOneMore(period, mid, e);
      if Enabled(After(period, mid), e) { ScheduledStep(period, mid, e, m); }
    }
  }

  /** The event is an answer for the monitor that asks for no withdrawal while one is due no later than the next check.
      */
  ghost predicate Schedules(period: int, es: seq<Event>, e: Event, m: Monitor) {
    && e.CheckDone? && e.check in After(period, es).running && Answered(e.outcome)
    && Watched(period, es, e.check.lid) == Some(m) && !AsksFor(period, es, e, m)
    && DueAt(period, es, m).Some? && DueAt(period, es, m).value <= e.now + e.outcome.checkAfter
  }

  /** In every run, once an answered check finds a withdrawal due no later than the next check, a check made for it is
      armed or running in every continuation, as long as the monitor is watched and no check of its lease is answered.
      */
  lemma {:induction false} ScheduledStays(period: int, es: seq<Event>, e: Event, more: seq<Event>, m: Monitor)
    requires Schedules(period, es, e, m)
    requires forall x | x in more :: !AnsweredFor(x, m.lid) && !x.CheckDropped?
    requires Alive(period, es + [e] + more, m)
    ensures ScheduledComing(After(period, es + [e] + more), m.lid)
  {
    SchedulesNext(period, es, e, m);
    ScheduledRun(period, es + [e], more, m);
  }

  lemma {:induction false} SchedulesNext(period: int, es: seq<Event>, e: Event, m: Monitor)
    requires Schedules(period, es, e, m)
    ensures m in After(period, es + [e]).states && ScheduledComing(After(period, es + [e]), m.lid)
  {
    WatchedKnown(period, es, e.check.lid, m);
    KnownNext(period, es, e, m);
    CheckFollowed(period, es, e);
    var due, asks := DueAt(period, es, m), AsksFor(period, es, e, m);
    var next := Check(m.lid, true, due.value - e.now);
    NextUnfolds(period, es, e, m, due, asks);
    NextIs(e, due);
    ArmedNext(After(period, es), e, After(period, es + [e]), next);
  }

  lemma {:induction false} WatchedKnown(period: int, es: seq<Event>, lid: LeaseKey, m: Monitor)
    requires Watched(period, es, lid) == Some(m)
    ensures m.lid == lid && m in After(period, es).states
  {
    WatchedExactly(period, es, lid);
    Facts(period, es);
  }

  lemma NextIs(e: Event, due: Option<int>)
    requires e.CheckDone? && Answered(e.outcome) && due.Some? && due.value <= e.now + e.outcome.checkAfter
    ensures NextCheck(e, true, false, due) == Some(Check(e.check.lid, true, due.value - e.now))
  {}

  lemma {:induction false} NextUnfolds(period: int, es: seq<Event>, e: Event, m: Monitor, due: Option<int>, asks: bool)
    requires e.CheckDone? && Watched(period, es, e.check.lid) == Some(m)
    requires due == DueAt(period, es, m) && asks == AsksFor(period, es, e, m)
    ensures NextFor(period, es, e) == NextCheck(e, true, asks, due)
  {}

  lemma ArmedNext(s: State, e: Event, t: State, next: Check)
    requires Enabled(s, e) && TimersFollow(s, e, t, None, Some(next)) && next.scheduledWithdraw
    ensures ScheduledComing(t, next.lid)
  {
    assert t.armed[s.nextTimer] == next;
  }

  lemma {:induction false} DueNeedsPeriod(period: int, es: seq<Event>, m: Monitor)
    ensures DueAt(period, es, m).Some? ==> period > 0
  {
    if es != [] { DueNeedsPeriod(period, es[..|es| - 1], m); }
  }

  /** In every run an answered check that asks for a withdrawal leaves one, and only one, queued or in flight. */
  lemma {:induction false} AskedIsOutstanding(period: int, es: seq<Event>, e: Event, m: Monitor)
    requires AsksFor(period, es, e, m)
    ensures Occurs(After(period, es + [e]), m) == 1
  {
    assert Inv(After(period, es)) by {
      InitInv(period);
      RunKeeps(Init(period), es);
    }
    WatchedExactly(period, es, e.check.lid);
    Facts(period, es);
    AsksIff(period, es, e, m);
    RunOneMore(period, es, e);
    StepOutstanding(After(period, es), e, m);
  }

  lemma StepOutstanding(s: State, e: Event, m: Monitor)
    requires Inv(s) && m in s.states && Asks(s, e, m)
    ensures Occurs(Step(s, e), m) == 1
  {
    CheckRetries(s, e.check, e.outcome, e.published, e.now);
  }

  /** And when that check is answered, the withdrawal is queued, unless one still is or is in flight. */
  lemma {:induction false} ScheduledIsQueued(period: int, es: seq<Event>, e: Event, more: seq<Event>, answer: Event,
                                             m: Monitor)
    requires Schedules(period, es, e, m)
    requires AnsweredFor(answer, m.lid) && answer.check.scheduledWithdraw
    requires Watched(period, es + [e] + more, m.lid) == Some(m)
    requires answer.check in After(period, es + [e] + more).running
    ensures Occurs(After(period, es + [e] + more + [answer]), m) == 1
  {
    DueNeedsPeriod(period, es, m);
    AskedIsOutstanding(period, es + [e] + more, answer, m);
  }

  // ---- The end of the context ----

  lemma SendCancelled(s: State)
    ensures SendWithdrawals(s).cancelled == s.cancelled
  {
    SendKeeps(s);
    assert Rest(SendWithdrawals(s)).4 == Rest(s).4;
  }

  lemma HandledCancelled(s: State, m: Monitor, check: Check, outcome: Outcome, published: bool, now: int)
    requires m in s.states
    ensures Handled(s, m, check, outcome, published, now).cancelled == s.cancelled
  {
    if Answered(outcome) { SendCancelled(Queued(Rearmed(s, m, check, outcome, now), m)); }
  }

  lemma StepCancelled(s: State, e: Event)
    ensures Step(s, e).cancelled <==> s.cancelled || e.ContextEnds?
  {
    if Enabled(s, e) {
      if e.CheckDone? && Watching(s, e.check.lid) {
        var t := s.(running := s.running - multiset{e.check});
        HandledCancelled(t, s.leases[e.check.lid], e.check, e.outcome, e.published, e.now);
      } else if e.WithdrawDone? {
        ConcludedDoes(s, e.result, e.published);
        SendCancelled(Concluded(s, e.result, e.published));
      }
    }
  }

  /** In every run sending is over exactly since the context ended. */
  lemma {:induction false} CancelledIff(period: int, es: seq<Event>)
    ensures After(period, es).cancelled <==> ContextEnds in es
  {
    if es != [] {
      var front, e := es[..|es| - 1], es[|es| - 1];
      CancelledIff(period, front);
      StepCancelled(After(period, front), e);
      assert es == front + [e];
    }
  }
}
