/** The deployment manager's event loop as a state machine: deploy and teardown jobs run one at a time off the
    loop, teardown is retried until it succeeds, and a reclamation close runs beside them.  Every statement about
    runs below holds for every sequence of events. */
module DeploymentLoop {
  import opened Market

  /** A deployment, which the manager only hands on. */
  type Deployment(==, !new)

  datatype Phase =
    | DeployActive
    | DeployPending
    | DeployComplete
    | TeardownActive
    | TeardownPending
    | TeardownComplete

  datatype Job = Deploy(d: Deployment) | Teardown

  /** How a job ended: `LeaseInactive` is the error a deploy reports for a lease the chain closed. */
  datatype JobResult = JobOk | LeaseInactive | JobFailed

  /** The deploy and teardown part: the loop's variables, the job goroutines alive (`alive`), and a record of the jobs
      started, the deployments accepted and the funds monitor removals handed to the bus. */
  datatype Jobs = Jobs(
    phase: Phase,
    deployment: Deployment,
    monitoring: bool,
    runch: Option<Job>,
    alive: seq<Job>,
    retryArmed: bool,
    stopping: bool,
    exited: bool,
    panicked: bool,
    started: seq<Job>,
    accepted: seq<Deployment>,
    removals: nat)

  /** The reclamation part: the deadline channel, the attempts running off the loop, their result channel, and a record
      of the deadlines attempts were made for. */
  datatype Reclaim = Reclaim(
    channel: seq<int>,
    deadline: int,
    reclaiming: bool,
    attempts: nat,
    results: seq<bool>,
    timerArmed: bool,
    tried: seq<int>)

  datatype State = State(j: Jobs, r: Reclaim)

  datatype JobEvent =
    | ShutdownRequest
    | Update(d: Deployment)
    | JobReported(result: JobResult)
    | RetryFires
    | TeardownRequest

  datatype ReclaimEvent =
    | DeadlineOffered(deadline: int)
    | DeadlineReceived
    | TimerFires
    | AttemptEnds(done: bool)
    | AttemptReported

  datatype Event = OnJobs(je: JobEvent) | OnReclaim(re: ReclaimEvent)

  predicate TearingDown(p: Phase) {
    p.TeardownPending? || p.TeardownActive? || p.TeardownComplete?
  }

  // ---- Deploy and teardown ----

  /** A goroutine for the job starts, the loop listens to it from now on, and the monitor stops. */
  function StartJob(s: Jobs, job: Job): Jobs {
    s.(runch := Some(job), alive := s.alive + [job], started := s.started + [job], monitoring := false)
  }

  function StartDeploy(s: Jobs): Jobs {
    StartJob(s, Deploy(s.deployment)).(phase := DeployActive)
  }

  function StartTeardown(s: Jobs): Jobs {
    StartJob(s, Teardown).(phase := TeardownActive, removals := s.removals + 1)
  }

  function HandleUpdate(s: Jobs, d: Deployment): Jobs {
    var t := s.(deployment := d, accepted := s.accepted + [d]);
    match s.phase
    case DeployActive => t.(phase := DeployPending)
    case DeployComplete => StartDeploy(t)
    case _ => t
  }

  function HandleResult(s: Jobs, result: JobResult): Jobs
    requires s.runch.Some? && s.alive != []
  {
    var t := s.(runch := None, alive := s.alive[1..]);
    if result.LeaseInactive? then StartTeardown(t) else AfterJob(t, result.JobOk?)
  }

  /** What comes after a job that found the lease still active. */
  function AfterJob(s: Jobs, ok: bool): Jobs {
    match s.phase
    case DeployActive => s.(phase := DeployComplete, monitoring := true)
    case DeployPending => StartDeploy(s)
    case TeardownActive => if ok then s.(phase := TeardownComplete, exited := true) else s.(retryArmed := true)
    case TeardownPending => StartTeardown(s)
    case DeployComplete => s.(panicked := true)
    case TeardownComplete => s.(panicked := true)
  }

  function HandleTeardown(s: Jobs): Jobs {
    var t := s.(monitoring := false);
    match s.phase
    case DeployActive => t.(phase := TeardownPending)
    case DeployPending => t.(phase := TeardownPending)
    case DeployComplete => StartTeardown(t)
    case _ => t
  }

  /** The loop still runs, and the event's channel has a value. */
  predicate JobEnabled(s: Jobs, e: JobEvent) {
    && !s.exited && !s.panicked
    && (e.JobReported? ==> s.runch.Some? && s.alive != [])
    && (e.RetryFires? ==> s.retryArmed)
  }

  function JobStep(s: Jobs, e: JobEvent): Jobs
    requires JobEnabled(s, e)
  {
    match e
    case ShutdownRequest => s.(stopping := true, exited := true)
    case Update(d) => HandleUpdate(s, d)
    case JobReported(result) => HandleResult(s, result)
    case RetryFires => StartTeardown(s.(retryArmed := false))
    case TeardownRequest => HandleTeardown(s)
  }

  // ---- Reclamation ----

  function StartAttempt(r: Reclaim, tearing: bool): Reclaim {
    if r.reclaiming || tearing then r
    else r.(reclaiming := true, attempts := r.attempts + 1, tried := r.tried + [r.deadline])
  }

  function HandleAttempt(r: Reclaim, tearing: bool): Reclaim
    requires r.results != []
  {
    var done := r.results[0];
    var t := r.(reclaiming := false, results := r.results[1..]);
    if tearing then t else t.(timerArmed := !done)
  }

  /** An attempt running off the loop can end at any time; the rest needs the loop. */
  predicate ReclaimEnabled(r: Reclaim, looping: bool, e: ReclaimEvent) {
    match e
    case AttemptEnds(_) => r.attempts > 0
    case DeadlineOffered(_) => looping
    case DeadlineReceived => looping && r.channel != []
    case TimerFires => looping && r.timerArmed
    case AttemptReported => looping && r.results != []
  }

  function ReclaimStep(r: Reclaim, looping: bool, tearing: bool, e: ReclaimEvent): Reclaim
    requires ReclaimEnabled(r, looping, e)
  {
    match e
    case DeadlineOffered(deadline) => if r.channel == [] then r.(channel := [deadline]) else r
    case DeadlineReceived =>
      StartAttempt(r.(channel := r.channel[1..], deadline := r.channel[0]), tearing)
    case TimerFires => StartAttempt(r.(timerArmed := false), tearing)
    case AttemptEnds(done) => r.(attempts := r.attempts - 1, results := r.results + [done])
    case AttemptReported => HandleAttempt(r, tearing)
  }

  // ---- The loop ----

  predicate Looping(s: State) {
    !s.j.exited && !s.j.panicked
  }

  function Init(d: Deployment): State {
    State(StartDeploy(Jobs(DeployActive, d, false, None, [], false, false, false, false, [], [d], 0)),
          Reclaim([], 0, false, 0, [], false, []))
  }

  predicate Enabled(s: State, e: Event) {
    match e
    case OnJobs(je) => JobEnabled(s.j, je)
    case OnReclaim(re) => ReclaimEnabled(s.r, Looping(s), re)
  }

  function Step(s: State, e: Event): State {
    if !Enabled(s, e) then s
    else match e
      case OnJobs(je) => s.(j := JobStep(s.j, je))
      case OnReclaim(re) => s.(r := ReclaimStep(s.r, Looping(s), TearingDown(s.j.phase), re))
  }

  function Run(s: State, es: seq<Event>): State {
    if es == [] then s else Step(Run(s, es[..|es| - 1]), es[|es| - 1])
  }

  // ---- Invariants ----

  /** The phase determines the job the loop listens to. */
  ghost predicate JobByPhase(s: Jobs) {
    match s.phase
    case DeployActive => s.runch.Some? && s.runch.value.Deploy? && !s.retryArmed
    case DeployPending => s.runch.Some? && s.runch.value.Deploy? && !s.retryArmed
    case TeardownPending => s.runch.Some? && s.runch.value.Deploy? && !s.retryArmed
    case DeployComplete => s.runch.None? && !s.retryArmed
    case TeardownActive => (s.runch == Some(Teardown) && !s.retryArmed) || (s.runch.None? && s.retryArmed)
    case TeardownComplete => s.runch.None? && !s.retryArmed
  }

  /** The goroutine listened to is the only one alive: jobs never overlap. */
  ghost predicate OneJob(s: Jobs) {
    s.alive == if s.runch.Some? then [s.runch.value] else []
  }

  /** The deployment in use is the latest accepted, and it is the one being or last deployed unless an update or a
      teardown is pending. */
  ghost predicate UpdatesKept(s: Jobs) {
    && s.accepted != [] && s.accepted[|s.accepted| - 1] == s.deployment
    && (s.phase.DeployActive? || s.phase.DeployComplete? ==>
          s.started != [] && s.started[|s.started| - 1] == Deploy(s.deployment))
  }

  ghost predicate JobsInv(s: Jobs) {
    && JobByPhase(s) && OneJob(s) && UpdatesKept(s)
    && !s.panicked
    && (s.monitoring <==> s.phase.DeployComplete?)
    && (s.exited <==> s.stopping || s.phase.TeardownComplete?)
    && (s.phase.TeardownActive? || s.phase.TeardownComplete? ==> s.removals > 0)
  }

  ghost predicate ReclaimInv(r: Reclaim) {
    && r.attempts + |r.results| == (if r.reclaiming then 1 else 0)
    && |r.channel| <= 1
  }

  ghost predicate Inv(s: State) {
    JobsInv(s.j) && ReclaimInv(s.r)
  }

  lemma JobStepKeeps(s: Jobs, e: JobEvent)
    requires JobsInv(s) && JobEnabled(s, e)
    ensures JobsInv(JobStep(s, e))
    ensures TearingDown(s.phase) ==> TearingDown(JobStep(s, e).phase)
  {}

  lemma ReclaimStepKeeps(r: Reclaim, looping: bool, tearing: bool, e: ReclaimEvent)
    requires ReclaimInv(r) && ReclaimEnabled(r, looping, e)
    ensures ReclaimInv(ReclaimStep(r, looping, tearing, e))
  {}

  lemma StepKeeps(s: State, e: Event)
    requires Inv(s)
    ensures Inv(Step(s, e))
    ensures TearingDown(s.j.phase) ==> TearingDown(Step(s, e).j.phase)
  {
    if Enabled(s, e) {
      match e
      case OnJobs(je) => JobStepKeeps(s.j, je);
      case OnReclaim(re) => ReclaimStepKeeps(s.r, Looping(s), TearingDown(s.j.phase), re);
    }
  }

  lemma {:induction false} RunKeeps(s: State, es: seq<Event>)
    requires Inv(s)
    ensures Inv(Run(s, es))
    ensures TearingDown(s.j.phase) ==> TearingDown(Run(s, es).j.phase)
  {
    if es != [] {
      RunKeeps(s, es[..|es| - 1]);
      StepKeeps(Run(s, es[..|es| - 1]), es[|es| - 1]);
    }
  }

  lemma {:induction false} RunAppend(s: State, es: seq<Event>, more: seq<Event>)
    ensures Run(s, es + more) == Run(Run(s, es), more)
  {
    if more == [] {
      assert es + more == es;
    } else {
      RunAppend(s, es, more[..|more| - 1]);
      assert (es + more)[..|es + more| - 1] == es + more[..|more| - 1];
    }
  }

  lemma {:induction false} RunOneMore(d: Deployment, es: seq<Event>, e: Event)
    ensures Run(Init(d), es + [e]) == Step(Run(Init(d), es), e)
  {
    assert (es + [e])[..|es|] == es;
  }

  lemma InitInv(d: Deployment)
    ensures Inv(Init(d))
  {}

  /** A state some run reaches, and with it everything below about runs. */
  ghost predicate Reachable(s: State) {
    exists d: Deployment, es: seq<Event> :: s == Run(Init(d), es)
  }

  lemma ReachableStep(s: State, e: Event)
    requires Reachable(s)
    ensures Reachable(Step(s, e))
  {
    var d, es :| s == Run(Init(d), es);
    assert (es + [e])[..|es|] == es;
    assert Step(s, e) == Run(Init(d), es + [e]);
  }

  lemma ReachableInv(s: State)
    requires Reachable(s)
    ensures Inv(s)
  {
    var d, es :| s == Run(Init(d), es);
    InitInv(d);
    RunKeeps(Init(d), es);
  }

  /** The two phases that the result of a job would panic in are never the ones it comes in. */
  lemma ReportedInPhase(s: State, result: JobResult)
    requires Reachable(s) && Enabled(s, OnJobs(JobReported(result)))
    ensures !s.j.phase.DeployComplete? && !s.j.phase.TeardownComplete?
  {
    ReachableInv(s);
  }

  // ---- Theorems about every run ----

  /** In every run the phase determines the running job, at most one job goroutine is alive, and neither
      "INVALID STATE" panic is reached. */
  lemma {:induction false} PhaseDeterminesJob(d: Deployment, es: seq<Event>)
    ensures var j := Run(Init(d), es).j;
            JobByPhase(j) && OneJob(j) && !j.panicked && (j.monitoring <==> j.phase.DeployComplete?)
  {
    InitInv(d);
    RunKeeps(Init(d), es);
  }

  /** A loop that ended without a shutdown request has torn the lease down, and handed the bus the removal of its funds
      monitor, whether or not the bus took it. */
  lemma {:induction false} ExitMeansTornDown(d: Deployment, es: seq<Event>)
    ensures var j := Run(Init(d), es).j;
            j.exited && !j.stopping ==> j.phase.TeardownComplete? && j.alive == [] && j.removals > 0
  {
    InitInv(d);
    RunKeeps(Init(d), es);
  }

  /** In every run with nothing pending, the deployment of the last deploy is the latest one accepted, however many
      updates came in meanwhile. */
  lemma {:induction false} NoUpdateLost(d: Deployment, es: seq<Event>)
    ensures var j := Run(Init(d), es).j;
            j.phase.DeployActive? || j.phase.DeployComplete? ==>
              j.started != [] && j.accepted != []
              && j.started[|j.started| - 1] == Deploy(j.accepted[|j.accepted| - 1])
  {
    InitInv(d);
    RunKeeps(Init(d), es);
  }

  /** In every run at most one reclamation attempt is running, and its result send finds the channel empty. */
  lemma {:induction false} AttemptNeverBlocks(d: Deployment, es: seq<Event>)
    ensures var r := Run(Init(d), es).r;
            r.attempts <= 1 && (r.attempts > 0 ==> r.results == []) && |r.results| <= 1
  {
    InitInv(d);
    RunKeeps(Init(d), es);
  }

  // ---- What becomes of a reclamation deadline ----

  /** Something will still close the lease: its teardown, an attempt running, one that ended without closing, or the
      timer of the next one. */
  ghost predicate Pursued(s: State) {
    TearingDown(s.j.phase) || s.r.attempts > 0 || (s.r.results != [] && !s.r.results[0]) || s.r.timerArmed
  }

  /** The result of an attempt that closed the lease waits for the loop. */
  ghost predicate CloseUnreported(s: State) {
    s.r.results != [] && s.r.results[0]
  }

  /** No attempt runs or has a result waiting, and none is scheduled. */
  ghost predicate Idle(s: State) {
    s.r.attempts == 0 && s.r.results == [] && !s.r.timerArmed
  }

  lemma ReceptionPursues(s: State)
    requires Inv(s) && Enabled(s, OnReclaim(DeadlineReceived)) && !CloseUnreported(s)
    ensures var t := Step(s, OnReclaim(DeadlineReceived)); Pursued(t) && !CloseUnreported(t)
  {}

  lemma PursuedStep(s: State, e: Event)
    requires Inv(s) && Pursued(s) && !CloseUnreported(s) && e != OnReclaim(AttemptEnds(true))
    ensures Pursued(Step(s, e)) && !CloseUnreported(Step(s, e))
  {
    StepKeeps(s, e);
  }

  lemma {:induction false} PursuedRun(s: State, es: seq<Event>)
    requires Inv(s) && Pursued(s) && !CloseUnreported(s) && OnReclaim(AttemptEnds(true)) !in es
    ensures Pursued(Run(s, es))
    ensures !CloseUnreported(Run(s, es))
  {
    if es != [] {
      PursuedRun(s, es[..|es| - 1]);
      RunKeeps(s, es[..|es| - 1]);
      PursuedStep(Run(s, es[..|es| - 1]), es[|es| - 1]);
    }
  }

  /** In every run, a deadline received while no close waits to be reported is pursued in every continuation in which
      no attempt closes the lease. */
  lemma {:induction false} DeadlineNotForgotten(d: Deployment, es: seq<Event>, more: seq<Event>)
    requires var s := Run(Init(d), es); Enabled(s, OnReclaim(DeadlineReceived)) && !CloseUnreported(s)
    requires OnReclaim(AttemptEnds(true)) !in more
    ensures Pursued(Run(Init(d), es + [OnReclaim(DeadlineReceived)] + more))
  {
    var upTo := es + [OnReclaim(DeadlineReceived)];
    InitInv(d);
    RunKeeps(Init(d), es);
    ReceptionPursues(Run(Init(d), es));
    RunOneMore(d, es, OnReclaim(DeadlineReceived));
    RunKeeps(Init(d), upTo);
    PursuedRun(Run(Init(d), upTo), more);
    RunAppend(Init(d), upTo, more);
  }

  /** The condition is exact: a deadline received is pursued in every continuation in which no attempt closes the lease
      if and only if the lease is being torn down or no close waits to be reported. */
  lemma {:induction false} DeadlineKeptIff(d: Deployment, es: seq<Event>)
    requires Enabled(Run(Init(d), es), OnReclaim(DeadlineReceived))
    ensures var s := Run(Init(d), es);
            (forall more: seq<Event> | OnReclaim(AttemptEnds(true)) !in more ::
               Pursued(Run(Init(d), es + [OnReclaim(DeadlineReceived)] + more)))
            <==> TearingDown(s.j.phase) || !CloseUnreported(s)
  {
    var s := Run(Init(d), es);
    var upTo := es + [OnReclaim(DeadlineReceived)];
    if !CloseUnreported(s) {
      forall more: seq<Event> | OnReclaim(AttemptEnds(true)) !in more ensures Pursued(Run(Init(d), upTo + more)) {
        DeadlineNotForgotten(d, es, more);
      }
    } else if TearingDown(s.j.phase) {
      forall more: seq<Event> | OnReclaim(AttemptEnds(true)) !in more ensures Pursued(Run(Init(d), upTo + more)) {
        assert upTo + more == es + ([OnReclaim(DeadlineReceived)] + more);
        TeardownIsFinal(d, es, [OnReclaim(DeadlineReceived)] + more);
      }
    } else {
      var more := [OnReclaim(AttemptReported)];
      InitInv(d);
      RunKeeps(Init(d), es);
      RunOneMore(d, es, OnReclaim(DeadlineReceived));
      RunOneMore(d, upTo, OnReclaim(AttemptReported));
      UnreportedStep(s, OnReclaim(DeadlineReceived));
      RunKeeps(Init(d), upTo);
      ReportForgets(Run(Init(d), upTo));
      assert !Pursued(Run(Init(d), upTo + more)) && OnReclaim(AttemptEnds(true)) !in more;
    }
  }

  lemma UnreportedStep(s: State, e: Event)
    requires Inv(s) && CloseUnreported(s) && e != OnReclaim(AttemptReported)
    ensures CloseUnreported(Step(s, e)) && Step(s, e).r.tried == s.r.tried
  {}

  lemma {:induction false} UnreportedRun(s: State, es: seq<Event>)
    requires Inv(s) && CloseUnreported(s) && OnReclaim(AttemptReported) !in es
    ensures CloseUnreported(Run(s, es)) && Run(s, es).r.tried == s.r.tried
  {
    if es != [] {
      UnreportedRun(s, es[..|es| - 1]);
      RunKeeps(s, es[..|es| - 1]);
      UnreportedStep(Run(s, es[..|es| - 1]), es[|es| - 1]);
    }
  }
  lemma ReportForgets(s: State)
    requires Inv(s) && CloseUnreported(s) && Looping(s) && !TearingDown(s.j.phase)
    ensures var t := Step(s, OnReclaim(AttemptReported));
            Idle(t) && !Pursued(t) && t.r.tried == s.r.tried
  {}

  lemma IdleStep(s: State, e: Event)
    requires Inv(s) && Idle(s) && e != OnReclaim(DeadlineReceived)
    ensures Idle(Step(s, e)) && Step(s, e).r.tried == s.r.tried
  {}

  lemma {:induction false} IdleRun(s: State, es: seq<Event>)
    requires Inv(s) && Idle(s) && OnReclaim(DeadlineReceived) !in es
    ensures Idle(Run(s, es)) && Run(s, es).r.tried == s.r.tried
  {
    if es != [] {
      IdleRun(s, es[..|es| - 1]);
      RunKeeps(s, es[..|es| - 1]);
      IdleStep(Run(s, es[..|es| - 1]), es[|es| - 1]);
    }
  }

  lemma {:induction false} ForgottenAtReport(d: Deployment, es: seq<Event>, more: seq<Event>)
    requires CloseUnreported(Run(Init(d), es)) && OnReclaim(AttemptReported) !in more
    requires var t := Run(Init(d), es + more); Looping(t) && !TearingDown(t.j.phase)
    ensures var u := Run(Init(d), es + more + [OnReclaim(AttemptReported)]);
            Inv(u) && Idle(u) && u.r.tried == Run(Init(d), es).r.tried
  {
    InitInv(d);
    RunKeeps(Init(d), es);
    UnreportedRun(Run(Init(d), es), more);
    RunAppend(Init(d), es, more);
    RunKeeps(Init(d), es + more);
    ReportForgets(Run(Init(d), es + more));
    RunOneMore(d, es + more, OnReclaim(AttemptReported));
    RunKeeps(Init(d), es + more + [OnReclaim(AttemptReported)]);
  }

  /** And what the condition shuts out: a deadline received while a close waits to be reported starts no attempt, and
      once the loop has taken the report, other deadlines received before it included, none is made, running or
      scheduled in any continuation until the next deadline is received. */
  lemma {:induction false} DeadlineForgotten(d: Deployment, es: seq<Event>, more: seq<Event>, rest: seq<Event>)
    requires var s := Run(Init(d), es); Enabled(s, OnReclaim(DeadlineReceived)) && CloseUnreported(s)
    requires OnReclaim(AttemptReported) !in more && OnReclaim(DeadlineReceived) !in rest
    requires var t := Run(Init(d), es + [OnReclaim(DeadlineReceived)] + more);
             Looping(t) && !TearingDown(t.j.phase)
    ensures var u := Run(Init(d), es + [OnReclaim(DeadlineReceived)] + more + [OnReclaim(AttemptReported)] + rest);
            Idle(u) && u.r.tried == Run(Init(d), es).r.tried
  {
    var received := [OnReclaim(DeadlineReceived)] + more;
    assert es + received == es + [OnReclaim(DeadlineReceived)] + more;
    ForgottenAtReport(d, es, received);
    var reported := es + received + [OnReclaim(AttemptReported)];
    IdleRun(Run(Init(d), reported), rest);
    RunAppend(Init(d), reported, rest);
  }

  /** Such a run: the close for the first deadline has ended but is not reported when the second is received, and the
      second one is stored and forgotten. */
  lemma SecondDeadlineForgotten(d: Deployment, first: int, second: int)
    ensures var es := [OnReclaim(DeadlineOffered(first)), OnReclaim(DeadlineReceived), OnReclaim(AttemptEnds(true)),
                       OnReclaim(DeadlineOffered(second)), OnReclaim(DeadlineReceived), OnReclaim(AttemptReported)];
            var s := Run(Init(d), es);
            Looping(s) && s.r.deadline == second && Idle(s) && !Pursued(s)
  {
    var s := Init(d);
    var a := Step(s, OnReclaim(DeadlineOffered(first)));
    var b := Step(a, OnReclaim(DeadlineReceived));
    var c := Step(b, OnReclaim(AttemptEnds(true)));
    var e := Step(c, OnReclaim(DeadlineOffered(second)));
    var f := Step(e, OnReclaim(DeadlineReceived));
    assert c.r.results == [true] && c.r.channel == [];
    assert f.r.deadline == second && f.r.results == [true];
    SixSteps(d, OnReclaim(DeadlineOffered(first)), OnReclaim(DeadlineReceived), OnReclaim(AttemptEnds(true)),
             OnReclaim(DeadlineOffered(second)), OnReclaim(DeadlineReceived), OnReclaim(AttemptReported));
  }

  lemma SixSteps(d: Deployment, a: Event, b: Event, c: Event, e: Event, f: Event, g: Event)
    ensures Run(Init(d), [a, b, c, e, f, g]) == Step(Step(Step(Step(Step(Step(Init(d), a), b), c), e), f), g)
  {
    RunOneMore(d, [a, b, c, e, f], g);
    RunOneMore(d, [a, b, c, e], f);
    RunOneMore(d, [a, b, c], e);
    RunOneMore(d, [a, b], c);
    RunOneMore(d, [a], b);
    RunOneMore(d, [], a);
    assert [a, b, c, e, f] + [g] == [a, b, c, e, f, g] && [a, b, c, e] + [f] == [a, b, c, e, f];
    assert [a, b, c] + [e] == [a, b, c, e] && [a, b] + [c] == [a, b, c] && [a] + [b] == [a, b] && [] + [a] == [a];
  }

  /** Every job started since was a teardown. */
  ghost predicate OnlyTeardowns(before: seq<Job>, after: seq<Job>) {
    before <= after && forall i | |before| <= i < |after| :: after[i].Teardown?
  }

  lemma TearingStep(s: State, e: Event)
    requires Inv(s) && TearingDown(s.j.phase)
    ensures OnlyTeardowns(s.j.started, Step(s, e).j.started)
    ensures Step(s, e).r.tried == s.r.tried
  {}

  lemma {:induction false} TearingRun(s: State, es: seq<Event>)
    requires Inv(s) && TearingDown(s.j.phase)
    ensures OnlyTeardowns(s.j.started, Run(s, es).j.started)
    ensures Run(s, es).r.tried == s.r.tried
  {
    if es != [] {
      var front := es[..|es| - 1];
      TearingRun(s, front);
      RunKeeps(s, front);
      TearingStep(Run(s, front), es[|es| - 1]);
    }
  }

  /** Once a run is tearing down it stays so: every continuation starts only teardowns and no reclamation attempt. */
  lemma {:induction false} TeardownIsFinal(d: Deployment, es: seq<Event>, more: seq<Event>)
    requires TearingDown(Run(Init(d), es).j.phase)
    ensures var s, t := Run(Init(d), es), Run(Init(d), es + more);
            && TearingDown(t.j.phase)
            && OnlyTeardowns(s.j.started, t.j.started)
            && t.r.tried == s.r.tried
  {
    InitInv(d);
    RunKeeps(Init(d), es);
    RunAppend(Init(d), es, more);
    RunKeeps(Run(Init(d), es), more);
    TearingRun(Run(Init(d), es), more);
  }

  /** A failed teardown is retried until one succeeds: with teardown active and no shutdown, either a teardown runs or
      its retry is armed, and that retry starts one. */
  lemma {:induction false} TeardownRetried(d: Deployment, es: seq<Event>)
    requires var s := Run(Init(d), es); s.j.phase.TeardownActive? && !s.j.exited
    ensures var s := Run(Init(d), es);
            s.j.runch == Some(Teardown) || Step(s, OnJobs(RetryFires)).j.runch == Some(Teardown)
  {
    InitInv(d);
    RunKeeps(Init(d), es);
  }
}
