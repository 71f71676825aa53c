/** The deployment manager told from its events: which job starts, when the loop ends and which reclamation attempts are
    made, in terms of what was delivered to the loop before and not of its phases. */
module DeploymentHistory {
  import opened Market
  import opened DeploymentLoop

  /** The last event was delivered: the loop took it. */
  ghost predicate Taken(d: Deployment, es: seq<Event>)
    requires es != []
  {
    Enabled(Run(Init(d), es[..|es| - 1]), es[|es| - 1])
  }

  /** The lease is to be closed: a teardown was requested, or a job found the lease inactive. */
  ghost predicate Closing(d: Deployment, es: seq<Event>) {
    es != [] && (Closing(d, es[..|es| - 1]) || (Taken(d, es) && Closes(es[|es| - 1])))
  }

  /** The deployments handed over so far: the first one and the updates taken. */
  ghost function HandedOver(d: Deployment, es: seq<Event>): (ds: seq<Deployment>)
    ensures ds != []
  {
    if es == [] then [d]
    else
      HandedOver(d, es[..|es| - 1]) + if Taken(d, es) && Updates(es[|es| - 1]) then [es[|es| - 1].je.d] else []
  }

  ghost function Newest(d: Deployment, es: seq<Event>): Deployment {
    HandedOver(d, es)[|HandedOver(d, es)| - 1]
  }

  ghost function StartedUpTo(d: Deployment, es: seq<Event>): seq<Job> {
    Run(Init(d), es).j.started
  }

  ghost function Listening(d: Deployment, es: seq<Event>): Option<Job> {
    Run(Init(d), es).j.runch
  }

  /** An update came since the last job started. */
  ghost predicate Outdated(d: Deployment, es: seq<Event>) {
    es != [] && var front := es[..|es| - 1];
    && StartedUpTo(d, es) == StartedUpTo(d, front)
    && ((Taken(d, es) && Updates(es[|es| - 1])) || Outdated(d, front))
  }

  /** The job an event makes the loop start, given the job it listens to, whether the lease is to be closed, and whether
      an update to the given deployment waits for that job. */
  ghost function Starts(e: JobEvent, listening: Option<Job>, closing: bool, outdated: bool, newest: Deployment)
    : seq<Job>
  {
    match e
    case ShutdownRequest => []
    case Update(x) => if listening.None? && !closing then [Deploy(x)] else []
    case JobReported(result) =>
      if result.LeaseInactive? then [Teardown]
      else if listening == Some(Teardown) then []
      else if closing then [Teardown]
      else if outdated then [Deploy(newest)]
      else []
    case RetryFires => [Teardown]
    case TeardownRequest => if listening.None? && !closing then [Teardown] else []
  }

  ghost predicate Closes(e: Event) {
    e == OnJobs(TeardownRequest) || e == OnJobs(JobReported(LeaseInactive))
  }

  ghost predicate Updates(e: Event) {
    e.OnJobs? && e.je.Update?
  }

  // ---- The phases mean what the events say ----

  ghost predicate Explains(j: Jobs, closing: bool, outdated: bool) {
    && (TearingDown(j.phase) <==> closing)
    && (!closing ==> (j.phase.DeployPending? <==> outdated))
  }

  /** How one event of the jobs changes what the phases mean. */
  ghost predicate Follows(s: Jobs, t: Jobs, e: JobEvent, closing: bool, outdated: bool) {
    && Explains(t, closing || Closes(OnJobs(e)), t.started == s.started && (e.Update? || outdated))
    && t.started == s.started + Starts(e, s.runch, closing, outdated, s.deployment)
    && t.accepted == s.accepted + if e.Update? then [e.d] else []
  }

  lemma UpdateFollows(s: Jobs, d: Deployment, closing: bool, outdated: bool)
    requires JobsInv(s) && Explains(s, closing, outdated) && JobEnabled(s, Update(d))
    ensures Follows(s, HandleUpdate(s, d), Update(d), closing, outdated)
  {}

  lemma ResultFollows(s: Jobs, result: JobResult, closing: bool, outdated: bool)
    requires JobsInv(s) && Explains(s, closing, outdated) && JobEnabled(s, JobReported(result))
    ensures Follows(s, HandleResult(s, result), JobReported(result), closing, outdated)
  {}

  lemma TeardownFollows(s: Jobs, closing: bool, outdated: bool)
    requires JobsInv(s) && Explains(s, closing, outdated) && JobEnabled(s, TeardownRequest)
    ensures Follows(s, HandleTeardown(s), TeardownRequest, closing, outdated)
  {}

  lemma JobFollows(s: Jobs, e: JobEvent, closing: bool, outdated: bool)
    requires JobsInv(s) && Explains(s, closing, outdated) && JobEnabled(s, e)
    ensures Follows(s, JobStep(s, e), e, closing, outdated)
  {
    match e
    case Update(d) => UpdateFollows(s, d, closing, outdated);
    case JobReported(result) => ResultFollows(s, result, closing, outdated);
    case TeardownRequest => TeardownFollows(s, closing, outdated);
    case _ =>
  }

  lemma StepExplained(s: State, e: Event, closing: bool, outdated: bool)
    requires Inv(s) && Explains(s.j, closing, outdated)
    ensures if e.OnJobs? && Enabled(s, e) then Follows(s.j, Step(s, e).j, e.je, closing, outdated)
            else Step(s, e).j == s.j
  {
    if e.OnJobs? && Enabled(s, e) { JobFollows(s.j, e.je, closing, outdated); }
  }

  lemma {:induction false} RunExplained(d: Deployment, es: seq<Event>)
    ensures Inv(Run(Init(d), es))
    ensures Explains(Run(Init(d), es).j, Closing(d, es), Outdated(d, es))
    ensures Run(Init(d), es).j.accepted == HandedOver(d, es)
  {
    InitInv(d);
    RunKeeps(Init(d), es);
    if es != [] {
      var front := es[..|es| - 1];
      RunExplained(d, front);
      StepExplained(Run(Init(d), front), es[|es| - 1], Closing(d, front), Outdated(d, front));
    }
  }

  // ---- Theorems about every run ----

  /** In every run the lease is being torn down exactly since a teardown was requested or a job found the lease
      inactive, whatever the loop was doing then. */
  lemma {:induction false} TearingDownIff(d: Deployment, es: seq<Event>)
    ensures TearingDown(Run(Init(d), es).j.phase) <==> Closing(d, es)
  {
    RunExplained(d, es);
  }

  /** In every run the deployment in use is the newest handed over, none refused, and an event starts exactly the job
      that what came before calls for. */
  lemma {:induction false} StartsExactly(d: Deployment, es: seq<Event>, e: Event)
    ensures Run(Init(d), es).j.deployment == Newest(d, es) && Run(Init(d), es).j.accepted == HandedOver(d, es)
    ensures StartedUpTo(d, es + [e]) == StartedUpTo(d, es) +
            if e.OnJobs? && Enabled(Run(Init(d), es), e)
            then Starts(e.je, Listening(d, es), Closing(d, es), Outdated(d, es), Newest(d, es)) else []
  {
    RunExplained(d, es);
    RunOneMore(d, es, e);
    StepExplained(Run(Init(d), es), e, Closing(d, es), Outdated(d, es));
  }

  /** The job started last has not reported. */
  ghost predicate Unfinished(d: Deployment, es: seq<Event>) {
    es == [] || var front := es[..|es| - 1];
    if StartedUpTo(d, es) != StartedUpTo(d, front) then true
    else !(Taken(d, es) && es[|es| - 1].OnJobs? && es[|es| - 1].je.JobReported?) && Unfinished(d, front)
  }

  ghost predicate Listens(s: Jobs, unfinished: bool) {
    && s.started != []
    && s.runch == if unfinished then Some(s.started[|s.started| - 1]) else None
  }

  lemma StepListens(s: Jobs, e: JobEvent, unfinished: bool)
    requires JobsInv(s) && Listens(s, unfinished) && JobEnabled(s, e)
    ensures Listens(JobStep(s, e), JobStep(s, e).started != s.started || (!e.JobReported? && unfinished))
  {}

  /** In every run the loop listens to the job it started last until that job has reported, and then to none. */
  lemma {:induction false} ListensToLast(d: Deployment, es: seq<Event>)
    ensures Listens(Run(Init(d), es).j, Unfinished(d, es))
  {
    if es != [] {
      var front, e := es[..|es| - 1], es[|es| - 1];
      ListensToLast(d, front);
      RunExplained(d, front);
      if Taken(d, es) && e.OnJobs? { StepListens(Run(Init(d), front).j, e.je, Unfinished(d, front)); }
    }
  }

  ghost predicate TearsDown(d: Deployment, es: seq<Event>) {
    Listening(d, es) == Some(Teardown)
  }

  /** In every run an event ends the loop if and only if it is the shutdown request or reports that the teardown
      listened to succeeded. */
  lemma {:induction false} EndsIff(d: Deployment, es: seq<Event>, e: Event)
    requires !Run(Init(d), es).j.exited
    ensures Run(Init(d), es + [e]).j.exited <==>
            e == OnJobs(ShutdownRequest) || (e == OnJobs(JobReported(JobOk)) && TearsDown(d, es))
  {
    RunExplained(d, es);
    RunOneMore(d, es, e);
  }

  /** And a failed teardown leaves it running, with nothing but the retry to wait for, which starts another. */
  lemma {:induction false} FailedTeardownRetried(d: Deployment, es: seq<Event>)
    requires !Run(Init(d), es).j.exited && TearsDown(d, es)
    ensures var t := Run(Init(d), es + [OnJobs(JobReported(JobFailed))]);
            && !t.j.exited && t.j.runch.None? && t.j.retryArmed
            && Step(t, OnJobs(RetryFires)).j.started == t.j.started + [Teardown]
  {
    RunExplained(d, es);
    RunOneMore(d, es, OnJobs(JobReported(JobFailed)));
  }

  ghost function TeardownsIn(js: seq<Job>): nat {
    multiset(js)[Teardown]
  }

  /** Each teardown comes with one removal of the funds monitor handed to the bus, and nothing else does. */
  lemma {:induction false} RemovalPerTeardown(d: Deployment, es: seq<Event>)
    ensures Run(Init(d), es).j.removals == TeardownsIn(StartedUpTo(d, es))
  {
    if es != [] {
      var front := es[..|es| - 1];
      RemovalPerTeardown(d, front);
      StepRemoves(Run(Init(d), front), es[|es| - 1]);
    }
  }

  lemma StepRemoves(s: State, e: Event)
    ensures var t := Step(s, e);
            t.j == s.j || Removes(s.j, t.j)
  {
    if e.OnJobs? && Enabled(s, e) { JobRemoves(s.j, e.je); }
  }

  lemma JobRemoves(s: Jobs, e: JobEvent)
    requires JobEnabled(s, e)
    ensures Removes(s, JobStep(s, e))
  {
    if e.JobReported? { ResultRemoves(s, e.result); }
  }

  ghost predicate Removes(s: Jobs, t: Jobs) {
    || (t.removals == s.removals + 1 && t.started == s.started + [Teardown])
    || (t.removals == s.removals && t.started == s.started)
    || (t.removals == s.removals && t.started == s.started + [Deploy(t.deployment)])
  }

  lemma ResultRemoves(s: Jobs, result: JobResult)
    requires JobEnabled(s, JobReported(result))
    ensures Removes(s, HandleResult(s, result))
  {}

  // ---- Reclamation ----

  /** The deadline offered and not received yet. */
  ghost function Offered(d: Deployment, es: seq<Event>): Option<int> {
    if es == [] then None
    else
      var front := es[..|es| - 1];
      if !Taken(d, es) || es[|es| - 1].OnJobs? then Offered(d, front)
      else match es[|es| - 1].re
        case DeadlineOffered(deadline) => if Offered(d, front).Some? then Offered(d, front) else Some(deadline)
        case DeadlineReceived => None
        case _ => Offered(d, front)
  }

  /** The deadline received last. */
  ghost function Deadline(d: Deployment, es: seq<Event>): int {
    if es == [] then 0
    else
      var front := es[..|es| - 1];
      if Taken(d, es) && es[|es| - 1] == OnReclaim(DeadlineReceived) && Offered(d, front).Some?
      then Offered(d, front).value else Deadline(d, front)
  }

  /** Whether the attempt that ended last closed the lease. */
  ghost function Closed(d: Deployment, es: seq<Event>): bool {
    es != [] && var e := es[|es| - 1];
    if Taken(d, es) && e.OnReclaim? && e.re.AttemptEnds? then e.re.done else Closed(d, es[..|es| - 1])
  }

  /** The last attempt reported did not close the lease, while it was not being torn down, and its timer has not fired
      since. */
  ghost predicate Waits(d: Deployment, es: seq<Event>) {
    es != [] && var front := es[..|es| - 1];
    if Taken(d, es) && es[|es| - 1] == OnReclaim(TimerFires) then false
    else if Taken(d, es) && es[|es| - 1] == OnReclaim(AttemptReported) && !Closing(d, front) then !Closed(d, front)
    else Waits(d, front)
  }

  ghost function Tried(d: Deployment, es: seq<Event>): seq<int> {
    Run(Init(d), es).r.tried
  }

  /** An attempt was made and is not reported yet. */
  ghost predicate Unreported(d: Deployment, es: seq<Event>) {
    es != [] && var front := es[..|es| - 1];
    if Tried(d, es) != Tried(d, front) then true
    else !(Taken(d, es) && es[|es| - 1] == OnReclaim(AttemptReported)) && Unreported(d, front)
  }

  /** What the reclamation variables mean, with the values the events give them. */
  ghost predicate Means(r: Reclaim, offered: Option<int>, deadline: int, closed: bool, waits: bool, unreported: bool) {
    && r.channel == (if offered.Some? then [offered.value] else [])
    && r.deadline == deadline
    && (r.results != [] ==> r.results[0] == closed)
    && r.timerArmed == waits
    && r.reclaiming == unreported
  }

  /** Both ways of starting an attempt need that none is unreported and the lease is not being torn down. */
  ghost predicate Attempts(e: ReclaimEvent) {
    e.DeadlineReceived? || e.TimerFires?
  }

  lemma ReclaimFollows(r: Reclaim, looping: bool, closing: bool, e: ReclaimEvent, offered: Option<int>, deadline: int,
                       closed: bool, waits: bool, unreported: bool)
    requires ReclaimInv(r) && Means(r, offered, deadline, closed, waits, unreported)
    requires ReclaimEnabled(r, looping, e)
    ensures var t := ReclaimStep(r, looping, closing, e);
            var received := if e.DeadlineReceived? then offered.value else deadline;
            && Means(t,
                     if e.DeadlineReceived? then None
                     else if e.DeadlineOffered? && offered.None? then Some(e.deadline) else offered,
                     received,
                     if e.AttemptEnds? then e.done else closed,
                     if e.TimerFires? then false else if e.AttemptReported? && !closing then !closed else waits,
                     t.tried != r.tried || (!e.AttemptReported? && unreported))
            && t.tried == r.tried + (if Attempts(e) && !unreported && !closing then [received] else [])
  {}

  lemma {:induction false} RunMeans(d: Deployment, es: seq<Event>)
    ensures Means(Run(Init(d), es).r, Offered(d, es), Deadline(d, es), Closed(d, es), Waits(d, es), Unreported(d, es))
  {
    if es != [] {
      var front, e := es[..|es| - 1], es[|es| - 1];
      RunMeans(d, front);
      RunExplained(d, front);
      if e.OnReclaim? && Taken(d, es) {
        var s := Run(Init(d), front);
        ReclaimFollows(s.r, Looping(s), Closing(d, front), e.re, Offered(d, front), Deadline(d, front),
                       Closed(d, front), Waits(d, front), Unreported(d, front));
      }
    }
  }

  /** In every run an event makes a reclamation attempt if and only if it is a deadline received or the timer, no
      attempt is unreported, and the lease is not being torn down; it is made for the deadline received last, which is
      the first one offered since the one before. */
  lemma {:induction false} AttemptsExactly(d: Deployment, es: seq<Event>, e: Event)
    ensures Tried(d, es + [e]) == Tried(d, es) +
            if e.OnReclaim? && Enabled(Run(Init(d), es), e) && Attempts(e.re) && !Unreported(d, es) && !Closing(d, es)
            then [Deadline(d, es + [e])] else []
  {
    RunMeans(d, es);
    RunMeans(d, es + [e]);
    RunExplained(d, es);
    RunOneMore(d, es, e);
    assert (es + [e])[..|es|] == es;
    if e.OnReclaim? && Enabled(Run(Init(d), es), e) {
      var s := Run(Init(d), es);
      ReclaimFollows(s.r, Looping(s), Closing(d, es), e.re, Offered(d, es), Deadline(d, es),
                     Closed(d, es), Waits(d, es), Unreported(d, es));
    }
  }

  /** In every run the timer is armed exactly from the report of an attempt that did not close the lease to its firing,
      unless that report came with the lease being torn down. */
  lemma {:induction false} TimerIff(d: Deployment, es: seq<Event>)
    ensures Run(Init(d), es).r.timerArmed <==> Waits(d, es)
  {
    RunMeans(d, es);
  }
}
