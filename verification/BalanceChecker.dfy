/** The balance checker itself: the `run` loop's variables as fields, each `select` case a method, lease
    states as objects shared by reference between the lease map, the queues and the transaction in flight.
    The ghost field `abs` is the loop's state in the state machine of `BalanceLoop`; `Tied` ties it to the
    real fields, and every method moves both alike.  Between two cases of the loop `Valid` says moreover that it
    is a state of some run, so what is proved there of all runs holds of this code. */
module BalanceChecker {
  import opened Market
  import opened WithdrawQueue
  import opened BalanceLoop

  class MonitorState {
    /** Which lease this object was made for, and as the how manieth. */
    ghost const id: Monitor
    var tm: Option<TimerID>
    var scheduledWithdrawAt: Option<int>
    var closed: bool
    var withdrawing: bool
    var retryWithdraw: bool

    constructor (ghost id: Monitor, at: Option<int>)
      ensures this.id == id && Value() == LeaseState(None, at, false, false, false)
    {
      this.id := id;
      tm, scheduledWithdrawAt := None, at;
      closed, withdrawing, retryWithdraw := false, false, false;
    }

    ghost function Value(): LeaseState
      reads this
    {
      LeaseState(tm, scheduledWithdrawAt, closed, withdrawing, retryWithdraw)
    }
  }

  datatype Item = Item(lid: LeaseKey, state: MonitorState)

  ghost function IdsOf(items: seq<Item>): seq<Monitor> {
    if items == [] then [] else [items[0].state.id] + IdsOf(items[1..])
  }

  lemma {:induction false} IdsOfConcat(a: seq<Item>, b: seq<Item>)
    ensures IdsOf(a + b) == IdsOf(a) + IdsOf(b)
  {
    if a == [] {
      assert a + b == b;
    } else {
      assert (a + b)[1..] == a[1..] + b;
      IdsOfConcat(a[1..], b);
    }
  }

  lemma {:induction false} IdsOfLength(items: seq<Item>)
    ensures |IdsOf(items)| == |items|
    ensures forall i | 0 <= i < |items| :: IdsOf(items)[i] == items[i].state.id
  {
    if items != [] { IdsOfLength(items[1..]); }
  }

  lemma {:induction false} IdsOfSlices(items: seq<Item>, k: nat)
    requires k <= |items|
    ensures |IdsOf(items)| == |items|
    ensures IdsOf(items[..k]) == IdsOf(items)[..k] && IdsOf(items[k..]) == IdsOf(items)[k..]
  {
    IdsOfLength(items);
    IdsOfLength(items[..k]);
    IdsOfConcat(items[..k], items[k..]);
    assert items[..k] + items[k..] == items;
  }

  lemma {:induction false} DistinctStates(items: seq<Item>)
    requires Distinct(IdsOf(items))
    ensures forall i, j | 0 <= i < j < |items| :: items[i].state != items[j].state
  {
    IdsOfLength(items);
    forall i, j | 0 <= i < j < |items| ensures items[i].state != items[j].state {
      DistinctIndices(IdsOf(items), i, j);
    }
  }

  /** Picking items and picking their identities agree. */
  lemma {:induction false} KeptIds(items: seq<Item>, live: set<Item>, ids: set<Monitor>)
    requires forall i | i in items :: i in live <==> i.state.id in ids
    ensures IdsOf(Kept(items, live)) == Kept(IdsOf(items), ids)
  {
    if items != [] {
      KeptIds(items[1..], live, ids);
      IdsOfConcat(if items[0] in live then [items[0]] else [], Kept(items[1..], live));
    }
  }

  lemma {:induction false} PoppedIds(items: seq<Item>, live: set<Item>, ids: set<Monitor>, room: nat)
    requires forall i | i in items :: i in live <==> i.state.id in ids
    ensures Popped(items, live, room) == Popped(IdsOf(items), ids, room)
  {
    if items != [] && room > 0 {
      PoppedIds(items[1..], live, ids, if items[0] in live then room - 1 else room);
    }
  }

  lemma {:induction false} PickIds(alone: seq<Item>, due: seq<Item>, live: set<Item>, ids: set<Monitor>)
    requires forall i | i in alone || i in due :: i in live <==> i.state.id in ids
    ensures var p, q := Pick(alone, due, live), Pick(IdsOf(alone), IdsOf(due), ids);
            q == Picked(IdsOf(p.batch), IdsOf(p.alone), IdsOf(p.due))
  {
    PoppedIds(alone, live, ids, 1);
    PoppedIds(due, live, ids, MAX_WITHDRAW_BATCH);
    var k, m := Popped(alone, live, 1), Popped(due, live, MAX_WITHDRAW_BATCH);
    IdsOfSlices(alone, k);
    IdsOfSlices(due, m);
    KeptIds(alone[..k], live, ids);
    KeptIds(due[..m], live, ids);
    assert IdsOf(Kept(alone[..k], live)) == [] <==> Kept(alone[..k], live) == [];
  }

  /** What is picked was queued. */
  lemma {:induction false} KeptFrom<T>(q: seq<T>, live: set<T>)
    ensures forall x | x in Kept(q, live) :: x in q && x in live
  {
    if q != [] { KeptFrom(q[1..], live); }
  }

  lemma PickedFrom<T>(alone: seq<T>, due: seq<T>, live: set<T>)
    ensures var p := Pick(alone, due, live);
            && (forall x | x in p.alone :: x in alone)
            && (forall x | x in p.due :: x in due)
            && (forall x | x in p.batch :: x in alone || x in due)
  {
    KeptFrom(alone[..Popped(alone, live, 1)], live);
    KeptFrom(due[..Popped(due, live, MAX_WITHDRAW_BATCH)], live);
  }

  class Checker {
    const period: int
    const withdrawals: Queue<Item>
    var leases: map<LeaseKey, MonitorState>
    var cancelled: bool
    var nextTimer: TimerID

    ghost var objs: map<Monitor, MonitorState>
    ghost var inFlight: seq<Item>
    ghost var abs: State

    /** The object is the state of one of the monitors made so far. */
    ghost predicate Known(lid: LeaseKey, st: MonitorState)
      reads this`objs
    {
      st.id.lid == lid && st.id in objs && objs[st.id] == st
    }

    ghost predicate AllKnown(items: seq<Item>)
      reads this`objs
    {
      forall i | i in items :: Known(i.lid, i.state)
    }

    ghost predicate TiesLeases()
      reads this`objs, this`leases, this`abs
    {
      forall lid :: (lid in leases <==> lid in abs.leases)
                    && (lid in leases ==> Known(lid, leases[lid]) && leases[lid].id == abs.leases[lid])
    }

    ghost predicate TiesStates()
      reads this`objs, this`abs, objs.Values
    {
      forall m :: (m in objs <==> m in abs.states)
                  && (m in objs ==> objs[m].id == m && objs[m].Value() == abs.states[m])
    }

    ghost predicate TiesQueues()
      reads this`inFlight, this`abs, withdrawals
    {
      (IdsOf(withdrawals.due), IdsOf(withdrawals.alone), IdsOf(inFlight), withdrawals.sending)
      == (abs.due, abs.alone, abs.inFlight, inFlight != [])
    }

    ghost predicate Tied()
      reads this, objs.Values, withdrawals
    {
      && TiesStates() && TiesLeases() && TiesQueues()
      && AllKnown(withdrawals.due + withdrawals.alone + inFlight)
      && (period, cancelled, nextTimer) == (abs.period, abs.cancelled, abs.nextTimer)
    }

    ghost predicate Valid()
      reads this, objs.Values, withdrawals
    {
      Tied() && Reachable(abs)
    }

    /** Every withdrawal: those waiting, and those of the transaction in flight. */
    ghost function Withdrawals(): seq<Item>
      reads this`inFlight, withdrawals
    {
      withdrawals.alone + withdrawals.due + inFlight
    }

    /** What every state of the checker between two cases has in it: no lease state is among the withdrawals twice, and
        none waits while the queue is free to send. */
    lemma EachWithdrawnOnce()
      requires Valid()
      ensures forall i, j | 0 <= i < j < |Withdrawals()| :: Withdrawals()[i].state != Withdrawals()[j].state
      ensures !withdrawals.sending && !cancelled ==> withdrawals.due == [] && withdrawals.alone == []
    {
      ReachableInv(abs);
      var all := Withdrawals();
      IdsOfConcat(withdrawals.alone + withdrawals.due, inFlight);
      IdsOfConcat(withdrawals.alone, withdrawals.due);
      QueuedOnce(abs);
      DistinctStates(all);
      IdsOfLength(withdrawals.due);
      IdsOfLength(withdrawals.alone);
    }

    constructor (period: int)
      ensures Valid() && abs == Init(period) && fresh(withdrawals)
    {
      this.period := period;
      leases, cancelled, nextTimer := map[], false, 0;
      objs, inFlight, abs := map[], [], Init(period);
      withdrawals := new Queue();
      assert Init(period) == Run(Init(period), []);
    }

    // ---- Single assignments ----

    /** Gives a lease state its next timer. */
    method SetTimer(lid: LeaseKey, st: MonitorState, t: TimerID)
      requires Tied() && Known(lid, st)
      modifies this`abs, st`tm
      ensures Tied() && abs == WithState(old(abs), st.id, old(abs.states)[st.id].(tm := Some(t)))
    {
      abs := WithState(abs, st.id, abs.states[st.id].(tm := Some(t)));
      st.tm := Some(t);
    }

    method SetClosed(lid: LeaseKey, st: MonitorState)
      requires Tied() && Known(lid, st)
      modifies this`abs, st`closed
      ensures Tied() && abs == WithState(old(abs), st.id, old(abs.states)[st.id].(closed := true))
    {
      abs := WithState(abs, st.id, abs.states[st.id].(closed := true));
      st.closed := true;
    }

    method SetSchedule(lid: LeaseKey, st: MonitorState, at: Option<int>)
      requires Tied() && Known(lid, st)
      modifies this`abs, st`scheduledWithdrawAt
      ensures Tied()
      ensures abs == WithState(old(abs), st.id, old(abs.states)[st.id].(scheduledWithdrawAt := at))
    {
      abs := WithState(abs, st.id, abs.states[st.id].(scheduledWithdrawAt := at));
      st.scheduledWithdrawAt := at;
    }

    method SetRetry(lid: LeaseKey, st: MonitorState, retry: bool)
      requires Tied() && Known(lid, st)
      modifies this`abs, st`retryWithdraw
      ensures Tied() && abs == WithState(old(abs), st.id, old(abs.states)[st.id].(retryWithdraw := retry))
    {
      abs := WithState(abs, st.id, abs.states[st.id].(retryWithdraw := retry));
      st.retryWithdraw := retry;
    }

    method SetWithdrawing(lid: LeaseKey, st: MonitorState, withdrawing: bool)
      requires Tied() && Known(lid, st)
      modifies this`abs, st`withdrawing
      ensures Tied() && abs == WithState(old(abs), st.id, old(abs.states)[st.id].(withdrawing := withdrawing))
    {
      abs := WithState(abs, st.id, abs.states[st.id].(withdrawing := withdrawing));
      st.withdrawing := withdrawing;
    }

    method AppendDue(item: Item)
      requires Tied() && Known(item.lid, item.state)
      modifies this`abs, withdrawals`due
      ensures Tied() && abs == old(abs).(due := old(abs.due) + [item.state.id])
    {
      IdsOfConcat(withdrawals.due, [item]);
      assert IdsOf([item]) == [item.state.id];
      withdrawals.due := withdrawals.due + [item];
      abs := abs.(due := abs.due + [item.state.id]);
    }

    /** The next timer is armed with a check. */
    method Arm(check: Check)
      requires Tied()
      modifies this`nextTimer, this`abs
      ensures Tied()
      ensures abs == old(abs).(armed := old(abs.armed)[old(nextTimer) := check], nextTimer := old(nextTimer) + 1)
    {
      abs := abs.(armed := abs.armed[nextTimer := check], nextTimer := nextTimer + 1);
      nextTimer := nextTimer + 1;
    }

    /** A check starts to run. */
    ghost method RunCheck(check: Check)
      requires Tied()
      modifies this`abs
      ensures Tied() && abs == StartCheck(old(abs), check)
    {
      abs := StartCheck(abs, check);
    }

    ghost method Record(a: Action)
      requires Tied()
      modifies this`abs
      ensures Tied() && abs == old(abs).(log := old(abs.log) + [a])
    {
      abs := abs.(log := abs.log + [a]);
    }

    /** A withdrawal starts with no transaction to its count. */
    ghost method Uncount(m: Monitor)
      requires Tied()
      modifies this`abs
      ensures Tied() && abs == old(abs).(txs := old(abs.txs)[m := 0])
    {
      abs := abs.(txs := abs.txs[m := 0]);
    }

    // ---- What the cases are made of ----

    /** Arms the timer of a monitor's next check. */
    method TimerFunc(lid: LeaseKey, st: MonitorState, check: Check)
      requires Tied() && Known(lid, st)
      modifies this`nextTimer, this`abs, st`tm
      ensures Tied() && abs == ArmTimer(old(abs), st.id, check)
    {
      SetTimer(lid, st, nextTimer);
      Arm(check);
      Record(Action.Arm(st.id));
    }

    /** Publishes the closure of the monitor's lease; `ok` is whether the bus took it. */
    method PublishClosed(lid: LeaseKey, st: MonitorState, reason: ClosedReason, ok: bool)
      requires Tied() && Known(lid, st)
      modifies this`abs, st`closed
      ensures Tied() && abs == PublishClosure(old(abs), st.id, reason, ok)
    {
      assert abs.states[st.id := abs.states[st.id]] == abs.states;
      if ok {
        SetClosed(lid, st);
      }
      Record(Publish(st.id, reason, ok));
    }

    method Enqueue(lid: LeaseKey, st: MonitorState)
      requires Tied() && Known(lid, st)
      modifies this`abs, withdrawals`due, st`withdrawing, st`retryWithdraw
      ensures Tied() && abs == Queued(old(abs), st.id)
    {
      Overwritten(abs.states, st.id, abs.states[st.id].(withdrawing := true),
                  abs.states[st.id].(withdrawing := true, retryWithdraw := false));
      SetWithdrawing(lid, st, true);
      SetRetry(lid, st, false);
      AppendDue(Item(lid, st));
      Uncount(st.id);
      Record(Action.Queue(st.id));
    }

    /** What `sendWithdrawals` asks of a withdrawal before it is sent. */
    predicate Keeps(i: Item)
      reads this`leases, i.state
    {
      i.lid in leases && leases[i.lid] == i.state && !i.state.closed
    }

    lemma KeepsLive(i: Item)
      requires TiesStates() && TiesLeases() && Known(i.lid, i.state)
      ensures Keeps(i) <==> i.state.id in Live(abs)
    {}

    /** The withdrawals of the next transaction leave the queues. */
    method TakeBatch() returns (batch: seq<Item>)
      requires Tied()
      modifies withdrawals`due, withdrawals`alone
      ensures AllKnown(withdrawals.due + withdrawals.alone + batch)
      ensures Pick(abs.alone, abs.due, Live(abs))
              == Picked(IdsOf(batch), IdsOf(withdrawals.alone), IdsOf(withdrawals.due))
    {
      var q := withdrawals;
      var live := set i | i in q.alone + q.due && Keeps(i);
      forall i | i in q.alone || i in q.due ensures i in live <==> i.state.id in Live(abs) { KeepsLive(i); }
      PickIds(q.alone, q.due, live, Live(abs));
      PickedFrom(q.alone, q.due, live);
      batch := q.Next(live);
    }

    /** Sends the next transaction unless one is in flight or the context ended. */
    method Send()
      requires Tied()
      modifies this`inFlight, this`abs, withdrawals
      ensures Tied() && abs == SendWithdrawals(old(abs))
    {
      if withdrawals.sending || cancelled {
        return;
      }
      var batch := TakeBatch();
      Launch(batch);
    }

    /** The batch just taken from the queues goes out, if there is one. */
    method Launch(batch: seq<Item>)
      requires TiesStates() && TiesLeases() && AllKnown(withdrawals.due + withdrawals.alone + batch)
      requires inFlight == [] && !withdrawals.sending && !cancelled && abs.inFlight == []
      requires (period, cancelled, nextTimer) == (abs.period, abs.cancelled, abs.nextTimer)
      requires Pick(abs.alone, abs.due, Live(abs))
               == Picked(IdsOf(batch), IdsOf(withdrawals.alone), IdsOf(withdrawals.due))
      modifies this`inFlight, this`abs, withdrawals`sending
      ensures Tied() && abs == SendWithdrawals(old(abs))
    {
      IdsOfLength(batch);
      SendIs(abs, Picked(IdsOf(batch), IdsOf(withdrawals.alone), IdsOf(withdrawals.due)));
      abs := Dispatched(abs, Picked(IdsOf(batch), IdsOf(withdrawals.alone), IdsOf(withdrawals.due)));
      inFlight := batch;
      withdrawals.sending := |batch| > 0;
    }

    /** `LeaseAddFundsMonitor`.  `firstIn` and `checkIn` are the random delays. */
    method OnAddMonitor(lid: LeaseKey, isNew: bool, now: int, firstIn: int, checkIn: int)
      requires Valid()
      modifies this`leases, this`nextTimer, this`objs, this`abs
      ensures Valid() && abs == Step(old(abs), AddMonitor(lid, isNew, now, firstIn, checkIn))
      ensures lid in leases && fresh(leases[lid])
    {
      ReachableStep(abs, AddMonitor(lid, isNew, now, firstIn, checkIn));
      ReachableSerials(abs);
      var at := FirstWithdrawal(period, isNew, now, firstIn);
      AddStep(abs, lid, isNew, now, firstIn, checkIn, at);
      Watch(lid, isNew, at, checkIn);
    }

    method Watch(lid: LeaseKey, isNew: bool, at: Option<int>, checkIn: int)
      requires Tied() && forall m | m in abs.states :: m.serial < abs.nextSerial
      modifies this`leases, this`nextTimer, this`objs, this`abs
      ensures Tied() && abs == OnAdd(old(abs), lid, isNew, at, checkIn)
      ensures lid in leases && fresh(leases[lid])
    {
      var st := Register(lid, at);
      if !isNew {
        TimerFunc(lid, st, Check(lid, false, checkIn));
      } else {
        RunCheck(Check(lid, false, 0));
      }
    }

    method Register(lid: LeaseKey, at: Option<int>) returns (st: MonitorState)
      requires Tied() && forall m | m in abs.states :: m.serial < abs.nextSerial
      modifies this`leases, this`objs, this`abs
      ensures Tied() && Known(lid, st) && fresh(st) && leases == old(leases)[lid := st]
      ensures abs == Registered(old(abs), lid, at) && st.id == Monitor(lid, old(abs.nextSerial))
    {
      st := new MonitorState(Monitor(lid, abs.nextSerial), at);
      Track(lid, st);
      Enter(lid, st);
    }

    method Enter(lid: LeaseKey, st: MonitorState)
      requires Tied() && Known(lid, st)
      modifies this`leases, this`abs
      ensures Tied() && leases == old(leases)[lid := st]
      ensures abs == old(abs).(leases := old(abs.leases)[lid := st.id], nextSerial := old(abs.nextSerial) + 1,
                               txs := old(abs.txs)[st.id := 0])
    {
      PointTo(lid, st);
      CountSerial(st.id);
    }

    ghost method CountSerial(m: Monitor)
      requires Tied()
      modifies this`abs
      ensures Tied() && abs == old(abs).(nextSerial := old(abs.nextSerial) + 1, txs := old(abs.txs)[m := 0])
    {
      abs := abs.(nextSerial := abs.nextSerial + 1, txs := abs.txs[m := 0]);
    }

    method PointTo(lid: LeaseKey, st: MonitorState)
      requires Tied() && Known(lid, st)
      modifies this`leases, this`abs
      ensures Tied() && leases == old(leases)[lid := st]
      ensures abs == old(abs).(leases := old(abs.leases)[lid := st.id])
    {
      leases := leases[lid := st];
      abs := abs.(leases := abs.leases[lid := st.id]);
    }

    ghost method Track(lid: LeaseKey, st: MonitorState)
      requires Tied() && st.id !in objs && st.id.lid == lid
      modifies this`objs, this`abs
      ensures Tied() && Known(lid, st) && objs == old(objs)[st.id := st]
      ensures abs == WithState(old(abs), st.id, st.Value())
    {
      objs := objs[st.id := st];
      abs := WithState(abs, st.id, st.Value());
    }

    /** `LeaseRemoveFundsMonitor`. */
    method OnRemoveMonitor(lid: LeaseKey)
      requires Valid()
      modifies this`leases, this`abs
      ensures Valid() && abs == Step(old(abs), RemoveMonitor(lid))
    {
      ReachableStep(abs, RemoveMonitor(lid));
      if lid in leases {
        StopTimer(leases[lid].tm);
        Forget(lid);
      }
    }

    ghost method StopTimer(tm: Option<TimerID>)
      requires Tied()
      modifies this`abs
      ensures Tied() && abs == old(abs).(armed := if tm.Some? then old(abs.armed) - {tm.value} else old(abs.armed))
    {
      abs := abs.(armed := if tm.Some? then abs.armed - {tm.value} else abs.armed);
    }

    method Forget(lid: LeaseKey)
      requires Tied()
      modifies this`leases, this`abs
      ensures Tied() && abs == old(abs).(leases := old(abs.leases) - {lid})
    {
      leases := leases - {lid};
      abs := abs.(leases := abs.leases - {lid});
    }

    ghost method EndCheck(check: Check)
      requires Tied()
      modifies this`abs
      ensures Tied() && abs == old(abs).(running := old(abs.running) - multiset{check})
    {
      abs := abs.(running := abs.running - multiset{check});
    }

    /** The result of a funds check, looked up by lease ID alone. */
    method OnCheckResult(check: Check, outcome: Outcome, published: bool, now: int)
      requires Valid() && check in abs.running
      modifies this`nextTimer, this`inFlight, this`abs, withdrawals, leases.Values
      ensures Valid() && abs == Step(old(abs), CheckDone(check, outcome, published, now))
    {
      ReachableStep(abs, CheckDone(check, outcome, published, now));
      EndCheck(check);
      if check.lid !in leases || leases[check.lid].closed {
        return;
      }
      assert Known(check.lid, leases[check.lid]);
      HandleOutcome(check, leases[check.lid], outcome, published, now);
    }

    /** A result for the current monitor of its lease, not reported closed. */
    method HandleOutcome(check: Check, st: MonitorState, outcome: Outcome, published: bool, now: int)
      requires Tied() && Known(check.lid, st)
      modifies this`nextTimer, this`inFlight, this`abs, withdrawals, st
      ensures Tied() && abs == Handled(old(abs), st.id, check, outcome, published, now)
    {
      match outcome
      case LeaseGone(reason) =>
        OnGone(check, st, reason, published, now);
      case Failed =>
        OnFailed(check, st, published, now);
      case _ =>
        OnFunds(check, st, outcome, published, now);
    }

    method OnFailed(check: Check, st: MonitorState, ghost published: bool, ghost now: int)
      requires Tied() && Known(check.lid, st)
      modifies this`nextTimer, this`abs, st`tm
      ensures Tied() && abs == Handled(old(abs), st.id, check, Failed, published, now)
    {
      TimerFunc(check.lid, st, Check(check.lid, check.scheduledWithdraw, RETRY_CHECK_AFTER));
    }

    method OnGone(check: Check, st: MonitorState, reason: ClosedReason, published: bool, ghost now: int)
      requires Tied() && Known(check.lid, st)
      modifies this`nextTimer, this`abs, st`closed, st`tm
      ensures Tied() && abs == Handled(old(abs), st.id, check, LeaseGone(reason), published, now)
    {
      PublishClosed(check.lid, st, reason, published);
      if !published {
        TimerFunc(check.lid, st, Check(check.lid, check.scheduledWithdraw, RETRY_CHECK_AFTER));
      }
    }

    method OnFunds(check: Check, st: MonitorState, outcome: Outcome, ghost published: bool, now: int)
      requires Tied() && Known(check.lid, st) && (outcome.OutOfFunds? || outcome.Funded?)
      modifies this`nextTimer, this`inFlight, this`abs, withdrawals, st
      ensures Tied() && abs == Handled(old(abs), st.id, check, outcome, published, now)
    {
      var withdraw := period > 0 && (outcome.OutOfFunds? || check.scheduledWithdraw || st.retryWithdraw);
      var pending := st.withdrawing;
      Rearm(check, st, outcome, withdraw, now);
      if withdraw && !pending {
        Enqueue(check.lid, st);
        Send();
      }
    }

    /** Reschedules the periodic withdrawal if one is due now, and arms the next check. */
    method Rearm(check: Check, st: MonitorState, outcome: Outcome, withdraw: bool, now: int)
      requires Tied() && Known(check.lid, st) && (outcome.OutOfFunds? || outcome.Funded?)
      requires withdraw <==> WantsWithdraw(abs, st.id, check, outcome)
      modifies this`nextTimer, this`abs, st`scheduledWithdrawAt, st`tm
      ensures Tied() && abs == Rearmed(old(abs), st.id, check, outcome, now)
    {
      assert st.Value() == abs.states[st.id];
      var at := if withdraw then Some(now + period) else st.scheduledWithdrawAt;
      RearmedIs(abs, st.id, check, outcome, now, withdraw, at);
      Reschedule(check.lid, st, at, FollowUp(check.lid, withdraw, at, now, outcome.checkAfter));
    }

    method Reschedule(lid: LeaseKey, st: MonitorState, at: Option<int>, check: Check)
      requires Tied() && Known(lid, st) && check.lid == lid
      modifies this`nextTimer, this`abs, st`scheduledWithdrawAt, st`tm
      ensures Tied() && abs == Rescheduled(old(abs), st.id, at, check)
    {
      SetSchedule(lid, st, at);
      TimerFunc(lid, st, check);
    }

    /** Every lease of a transaction that went through stops withdrawing. */
    method ClearAll(items: seq<Item>)
      requires Tied() && AllKnown(items)
      modifies this`abs, objs.Values`withdrawing
      ensures Tied() && abs == old(abs).(states := Cleared(old(abs.states), IdsOf(items)))
    {
      ghost var s := abs;
      var k := 0;
      ClearedNone(s, items);
      while k < |items|
        invariant k <= |items| && Tied()
        invariant abs == ClearedUpTo(s, items, k)
      {
        var item := items[k];
        ClearedNext(s, items, k);
        SetWithdrawing(item.lid, item.state, false);
        k := k + 1;
      }
      assert items[..k] == items;
    }

    /** The transaction in flight is over. */
    method Finish()
      requires Tied()
      modifies this`inFlight, this`abs, withdrawals`sending
      ensures Tied() && abs == old(abs).(inFlight := [])
    {
      withdrawals.sending := false;
      inFlight := [];
      abs := abs.(inFlight := []);
    }

    /** A withdrawal from a single lease failed. */
    method WithdrawFailed(item: Item, err: TxResult, published: bool)
      requires Tied() && Known(item.lid, item.state) && inFlight == []
      modifies this`abs, item.state`withdrawing, item.state`retryWithdraw, item.state`closed
      ensures Tied() && abs == Refused(old(abs), item.state.id, err, published)
    {
      var st := item.state;
      KeepsLive(item);
      RefusedIs(abs, st.id, err, published);
      var current := Keeps(item);
      SetWithdrawing(item.lid, st, false);
      if !current || !IsEscrowClosed(err) {
        if current {
          SetRetry(item.lid, st, true);
        }
        return;
      }
      PublishClosed(item.lid, st, if err.AccountClosed? then Owner else Unspecified, published);
    }

    /** The leases of a failed batch wait to be withdrawn from alone. */
    method Requeue(items: seq<Item>)
      requires Tied() && AllKnown(items)
      modifies this`abs, withdrawals`alone
      ensures Tied() && abs == old(abs).(alone := old(abs.alone) + IdsOf(items))
    {
      IdsOfConcat(withdrawals.alone, items);
      withdrawals.alone := withdrawals.alone + items;
      abs := abs.(alone := abs.alone + IdsOf(items));
    }

    method Succeed(items: seq<Item>)
      requires Tied() && items == inFlight
      modifies this`inFlight, this`abs, withdrawals`sending, objs.Values`withdrawing
      ensures Tied() && abs == Landed(old(abs))
    {
      Finish();
      ClearAll(items);
    }

    method FailBatch(items: seq<Item>)
      requires Tied() && items == inFlight
      modifies this`inFlight, this`abs, withdrawals`sending, withdrawals`alone
      ensures Tied() && abs == Requeued(old(abs))
    {
      Finish();
      Requeue(items);
    }

    method FailAlone(item: Item, err: TxResult, published: bool)
      requires Tied() && [item] == inFlight
      modifies this`inFlight, this`abs, withdrawals`sending, item.state
      ensures Tied() && abs == Refused(old(abs), item.state.id, err, published)
    {
      Finish();
      WithdrawFailed(item, err, published);
    }

    method Conclude(items: seq<Item>, result: TxResult, published: bool)
      requires Tied() && items == inFlight && items != []
      modifies this`inFlight, this`abs, withdrawals`sending, withdrawals`alone, objs.Values
      ensures Tied() && abs == Concluded(old(abs), result, published)
    {
      IdsOfLength(items);
      if result.TxOk? {
        Succeed(items);
      } else if |items| > 1 {
        FailBatch(items);
      } else {
        FailAlone(items[0], result, published);
      }
    }

    method ConcludeAndSend(items: seq<Item>, result: TxResult, published: bool)
      requires Tied() && items == inFlight && items != []
      modifies this`inFlight, this`abs, withdrawals, objs.Values
      ensures Tied() && abs == OnWithdrawResult(old(abs), result, published)
    {
      IdsOfLength(items);
      Conclude(items, result, published);
      Send();
    }

    /** The result of the transaction in flight, whose items come back with it. */
    method OnWithdrawalDone(items: seq<Item>, result: TxResult, published: bool)
      requires Valid() && items == inFlight && items != []
      modifies this`inFlight, this`abs, withdrawals, objs.Values
      ensures Valid() && abs == Step(old(abs), WithdrawDone(result, published))
    {
      ReachableStep(abs, WithdrawDone(result, published));
      IdsOfLength(items);
      ConcludeAndSend(items, result, published);
    }

    /** A timer fires: its check runs. */
    ghost method OnTimerFired(t: TimerID)
      requires Valid() && t in abs.armed
      modifies this`abs
      ensures Valid() && abs == Step(old(abs), TimerFires(t))
    {
      ReachableStep(abs, TimerFires(t));
      abs := OnTimer(abs, t);
    }

    /** A check that ends after the context did may be dropped. */
    ghost method OnCheckDropped(check: Check)
      requires Valid() && cancelled && check in abs.running
      modifies this`abs
      ensures Valid() && abs == Step(old(abs), CheckDropped(check))
    {
      ReachableStep(abs, CheckDropped(check));
      EndCheck(check);
    }

    method Cancel()
      requires Valid()
      modifies this`cancelled, this`abs
      ensures Valid() && abs == Step(old(abs), ContextEnds)
    {
      ReachableStep(abs, ContextEnds);
      cancelled := true;
      abs := Step(abs, ContextEnds);
    }
  }

  lemma SendIs(s: State, p: Picked<Monitor>)
    requires s.inFlight == [] && !s.cancelled && Pick(s.alone, s.due, Live(s)) == p
    ensures SendWithdrawals(s) == Dispatched(s, p)
    ensures Rest(Dispatched(s, p)) == Rest(s) && Timers(Dispatched(s, p)) == Timers(s)
    ensures (Dispatched(s, p).alone, Dispatched(s, p).due, Dispatched(s, p).inFlight) == (p.alone, p.due, p.batch)
  {}

  lemma AddStep(s: State, lid: LeaseKey, isNew: bool, now: int, firstIn: int, checkIn: int, at: Option<int>)
    requires at == FirstWithdrawal(s.period, isNew, now, firstIn)
    ensures Step(s, AddMonitor(lid, isNew, now, firstIn, checkIn)) == OnAdd(s, lid, isNew, at, checkIn)
  {}

  /** The three ways a refused withdrawal can go. */
  lemma RefusedIs(s: State, m: Monitor, err: TxResult, published: bool)
    requires m in s.states && s.inFlight == []
    ensures var t := WithState(s, m, s.states[m].(withdrawing := false));
            Refused(s, m, err, published) ==
            if !IsLive(s, m) then t
            else if !IsEscrowClosed(err) then WithState(t, m, t.states[m].(retryWithdraw := true))
            else PublishClosure(t, m, if err.AccountClosed? then Owner else Unspecified, published)
  {
    var l := s.states[m].(withdrawing := false);
    Overwritten(s.states, m, l, l.(retryWithdraw := true));
    Overwritten(s.states, m, l, l.(closed := l.closed || published));
  }

  lemma Overwritten(states: map<Monitor, LeaseState>, m: Monitor, l: LeaseState, k: LeaseState)
    ensures states[m := l][m := k] == states[m := k]
  {}

  lemma RearmedIs(s: State, m: Monitor, check: Check, outcome: Outcome, now: int, withdraw: bool, at: Option<int>)
    requires m in s.states && (outcome.OutOfFunds? || outcome.Funded?)
    requires withdraw <==> WantsWithdraw(s, m, check, outcome)
    requires at == if withdraw then Some(now + s.period) else s.states[m].scheduledWithdrawAt
    ensures Rearmed(s, m, check, outcome, now)
         == Rescheduled(s, m, at, FollowUp(check.lid, withdraw, at, now, outcome.checkAfter))
  {}

  ghost function ClearedUpTo(s: State, items: seq<Item>, k: nat): State
    requires k <= |items|
  {
    s.(states := Cleared(s.states, IdsOf(items[..k])))
  }

  lemma ClearedNone(s: State, items: seq<Item>)
    ensures ClearedUpTo(s, items, 0) == s
  {}

  lemma ClearedOneMore(states: map<Monitor, LeaseState>, ms: seq<Monitor>, m: Monitor)
    requires m in states
    ensures var done := Cleared(states, ms);
            Cleared(states, ms + [m]) == done[m := done[m].(withdrawing := false)]
  {}

  lemma ClearedNext(s: State, items: seq<Item>, k: nat)
    requires k < |items| && items[k].state.id in s.states
    ensures var m, done := items[k].state.id, ClearedUpTo(s, items, k);
            ClearedUpTo(s, items, k + 1) == WithState(done, m, done.states[m].(withdrawing := false))
  {
    assert items[..k + 1] == items[..k] + [items[k]];
    IdsOfConcat(items[..k], [items[k]]);
    assert IdsOf([items[k]]) == [items[k].state.id];
    ClearedOneMore(s.states, IdsOf(items[..k]), items[k].state.id);
  }
}
