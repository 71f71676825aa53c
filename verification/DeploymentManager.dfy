/** The deployment manager itself: the loop's variables as fields, each `select` case a method, proved against the
    state machine of `DeploymentLoop`.  The ghost field `abs` is the machine's state, which `Tied` ties to the
    fields; the goroutines the loop starts exist in `abs` only.  Between two cases of the loop `Valid` says moreover
    that it is a state of some run. */
module DeploymentManager {
  import opened Market
  import opened DeploymentLoop

  class Manager {
    var state: Phase
    var deployment: Deployment
    var monitor: bool
    var runch: Option<Job>
    var retryTeardown: bool
    var reclaimch: seq<int>
    var reclaimDeadline: int
    var reclaiming: bool
    var reclaimC: bool

    ghost var abs: State

    ghost predicate Tied()
      reads this
    {
      && (state, deployment, monitor, runch, retryTeardown)
         == (abs.j.phase, abs.j.deployment, abs.j.monitoring, abs.j.runch, abs.j.retryArmed)
      && (reclaimch, reclaimDeadline, reclaiming, reclaimC)
         == (abs.r.channel, abs.r.deadline, abs.r.reclaiming, abs.r.timerArmed)
    }

    ghost predicate Valid()
      reads this
    {
      Tied() && Reachable(abs)
    }

    /** What every state of the manager between two cases has in it: the job that goes with its phase, or the armed
        retry of a teardown; the monitor exactly when deployed; and if nothing is pending, the deployment in use as the
        one deployed last. */
    lemma JobGoesWithPhase()
      requires Valid()
      ensures monitor <==> state.DeployComplete?
      ensures state.DeployActive? || state.DeployPending? || state.TeardownPending? ==>
                runch.Some? && runch.value.Deploy? && !retryTeardown
      ensures state.DeployComplete? || state.TeardownComplete? ==> runch.None? && !retryTeardown
      ensures state.TeardownActive? ==> if retryTeardown then runch.None? else runch == Some(Teardown)
      ensures state.DeployActive? || state.DeployComplete? ==>
                abs.j.started != [] && abs.j.started[|abs.j.started| - 1] == Deploy(deployment)
    {
      ReachableInv(abs);
    }

    /** While an attempt is marked as made it runs or its one result waits, so the mark does not stay for ever. */
    lemma AttemptReportsBack()
      requires Valid()
      ensures reclaiming ==>
                (abs.r.attempts == 1 && abs.r.results == []) || (abs.r.attempts == 0 && |abs.r.results| == 1)
      ensures !reclaiming ==> abs.r.attempts == 0 && abs.r.results == []
    {
      ReachableInv(abs);
    }

    constructor (d: Deployment)
      ensures Valid() && abs == Init(d)
    {
      state, deployment, monitor, runch, retryTeardown := DeployActive, d, false, None, false;
      reclaimch, reclaimDeadline, reclaiming, reclaimC := [], 0, false, false;
      abs := State(Jobs(DeployActive, d, false, None, [], false, false, false, false, [], [d], 0),
                   Reclaim([], 0, false, 0, [], false, []));
      new;
      RunDeploy();
      assert abs == Run(Init(d), []);
    }

    method RunDeploy()
      requires Tied()
      modifies this`monitor, this`state, this`runch, this`abs
      ensures Tied() && abs == old(abs).(j := StartDeploy(old(abs.j)))
    {
      monitor := false;
      state := DeployActive;
      runch := Some(Deploy(deployment));
      abs := abs.(j := StartDeploy(abs.j));
    }

    method RunTeardown()
      requires Tied()
      modifies this`monitor, this`state, this`runch, this`abs
      ensures Tied() && abs == old(abs).(j := StartTeardown(old(abs.j)))
    {
      monitor := false;
      state := TeardownActive;
      runch := Some(Teardown);
      abs := abs.(j := StartTeardown(abs.j));
    }

    predicate Closing()
      reads this`state
    {
      match state
      case TeardownPending => true
      case TeardownActive => true
      case TeardownComplete => true
      case _ => false
    }

    /** A shutdown request ends the loop as it is. */
    method OnShutdown() returns (ended: bool)
      requires Valid() && Enabled(abs, OnJobs(ShutdownRequest))
      modifies this`abs
      ensures Valid() && abs == Step(old(abs), OnJobs(ShutdownRequest))
      ensures ended <==> abs.j.exited
    {
      ReachableStep(abs, OnJobs(ShutdownRequest));
      abs := abs.(j := abs.j.(stopping := true, exited := true));
      ended := true;
    }

    method OnUpdate(d: Deployment)
      requires Valid() && Enabled(abs, OnJobs(Update(d)))
      modifies this
      ensures Valid() && abs == Step(old(abs), OnJobs(Update(d)))
    {
      ReachableStep(abs, OnJobs(Update(d)));
      deployment := d;
      abs := abs.(j := abs.j.(deployment := d, accepted := abs.j.accepted + [d]));
      match state
      case DeployActive =>
        state := DeployPending;
        abs := abs.(j := abs.j.(phase := DeployPending));
      case DeployComplete =>
        RunDeploy();
      case _ =>
    }

    /** What comes after a job that found the lease still active.  Returns whether the loop ends. */
    method AfterJobDone(ok: bool) returns (ended: bool)
      requires Tied() && !state.DeployComplete? && !state.TeardownComplete? && !abs.j.exited
      modifies this
      ensures Tied() && abs == old(abs).(j := AfterJob(old(abs.j), ok))
      ensures ended <==> abs.j.exited
    {
      ended := false;
      match state
      case DeployActive =>
        state := DeployComplete;
        monitor := true;
        abs := abs.(j := abs.j.(phase := DeployComplete, monitoring := true));
      case DeployPending =>
        RunDeploy();
      case TeardownActive =>
        if !ok {
          retryTeardown := true;
          abs := abs.(j := abs.j.(retryArmed := true));
        } else {
          state := TeardownComplete;
          ended := true;
          abs := abs.(j := abs.j.(phase := TeardownComplete, exited := true));
        }
      case TeardownPending =>
        RunTeardown();
      case _ =>
        assert false;
    }

    /** A job reports.  Returns whether the loop ends; the two impossible phases would panic. */
    method OnResult(result: JobResult) returns (ended: bool)
      requires Valid() && Enabled(abs, OnJobs(JobReported(result)))
      modifies this
      ensures Valid() && abs == Step(old(abs), OnJobs(JobReported(result)))
      ensures ended <==> abs.j.exited
    {
      ReachableStep(abs, OnJobs(JobReported(result)));
      ReportedInPhase(abs, result);
      runch := None;
      ended := false;
      abs := abs.(j := abs.j.(runch := None, alive := abs.j.alive[1..]));
      if result.LeaseInactive? {
        RunTeardown();
      } else {
        ended := AfterJobDone(result.JobOk?);
      }
    }

    method OnRetry()
      requires Valid() && Enabled(abs, OnJobs(RetryFires))
      modifies this
      ensures Valid() && abs == Step(old(abs), OnJobs(RetryFires))
    {
      ReachableStep(abs, OnJobs(RetryFires));
      retryTeardown := false;
      abs := abs.(j := abs.j.(retryArmed := false));
      RunTeardown();
    }

    method OnTeardown()
      requires Valid() && Enabled(abs, OnJobs(TeardownRequest))
      modifies this
      ensures Valid() && abs == Step(old(abs), OnJobs(TeardownRequest))
    {
      ReachableStep(abs, OnJobs(TeardownRequest));
      monitor := false;
      abs := abs.(j := abs.j.(monitoring := false));
      match state
      case DeployComplete =>
        RunTeardown();
      case DeployActive =>
        state := TeardownPending;
        abs := abs.(j := abs.j.(phase := TeardownPending));
      case DeployPending =>
        state := TeardownPending;
        abs := abs.(j := abs.j.(phase := TeardownPending));
      case _ =>
    }

    /** Hands a deadline to the loop: the channel holds one, and a second is dropped. */
    method OfferDeadline(deadline: int)
      requires Valid() && Enabled(abs, OnReclaim(DeadlineOffered(deadline)))
      modifies this
      ensures Valid() && abs == Step(old(abs), OnReclaim(DeadlineOffered(deadline)))
    {
      ReachableStep(abs, OnReclaim(DeadlineOffered(deadline)));
      if |reclaimch| == 0 {
        reclaimch := [deadline];
        abs := abs.(r := abs.r.(channel := [deadline]));
      }
    }

    method StartReclaimAttempt()
      requires Tied()
      modifies this`reclaiming, this`abs
      ensures Tied() && abs == old(abs).(r := StartAttempt(old(abs.r), TearingDown(old(abs.j.phase))))
    {
      if reclaiming || Closing() {
        return;
      }
      reclaiming := true;
      abs := abs.(r := StartAttempt(abs.r, false));
    }

    method OnDeadline()
      requires Valid() && Enabled(abs, OnReclaim(DeadlineReceived))
      modifies this
      ensures Valid() && abs == Step(old(abs), OnReclaim(DeadlineReceived))
    {
      ReachableStep(abs, OnReclaim(DeadlineReceived));
      reclaimDeadline := reclaimch[0];
      reclaimch := reclaimch[1..];
      abs := abs.(r := abs.r.(channel := reclaimch, deadline := reclaimDeadline));
      StartReclaimAttempt();
    }

    method OnReclaimTimer()
      requires Valid() && Enabled(abs, OnReclaim(TimerFires))
      modifies this
      ensures Valid() && abs == Step(old(abs), OnReclaim(TimerFires))
    {
      ReachableStep(abs, OnReclaim(TimerFires));
      reclaimC := false;
      abs := abs.(r := abs.r.(timerArmed := false));
      StartReclaimAttempt();
    }

    /** The attempt off the loop ends and leaves its result in the channel. */
    ghost method AttemptEnded(done: bool)
      requires Valid() && Enabled(abs, OnReclaim(AttemptEnds(done)))
      modifies this`abs
      ensures Valid() && abs == Step(old(abs), OnReclaim(AttemptEnds(done)))
    {
      ReachableStep(abs, OnReclaim(AttemptEnds(done)));
      abs := Step(abs, OnReclaim(AttemptEnds(done)));
    }

    /** An attempt's result, `done` once the close is broadcast. */
    method OnAttempt(done: bool)
      requires Valid() && Enabled(abs, OnReclaim(AttemptReported)) && done == abs.r.results[0]
      modifies this
      ensures Valid() && abs == Step(old(abs), OnReclaim(AttemptReported))
    {
      ReachableStep(abs, OnReclaim(AttemptReported));
      reclaiming := false;
      if !Closing() {
        reclaimC := !done;
      }
      abs := abs.(r := HandleAttempt(abs.r, TearingDown(abs.j.phase)));
    }
  }
}
