/** `serve` and `drain` of src/server.rs, which drive the scheduler and change their own flags in place. */
module ShutdownState {
  import opened Wrappers
  import opened Admission
  import opened AdmissionSafety
  import opened AdmissionState
  import opened Shutdown

  class Server {
    const scheduler: Scheduler
    var stage: Stage
    var driving: bool
    var result: Verdict
    var httpDone: bool
    var owner: Option<Verdict>
    var http: Option<Verdict>
    var stopSent: bool

    ghost function View(): Service
      reads this, scheduler
    {
      Service(scheduler.View(), stage, driving, result, httpDone, owner, http, stopSent)
    }

    ghost predicate Valid()
      reads this, scheduler
    {
      ServiceInv(scheduler.c, View())
    }

    constructor (c: Admission.Config)
      ensures scheduler.c == c && fresh(scheduler) && View() == Shutdown.Begin(c) && Valid()
    {
      scheduler := new Scheduler(c);
      stage, driving, result, httpDone := Selecting, false, Success, false;
      owner, http, stopSent := None, None, false;
      new;
      BeginInv(c);
    }

    /** Whatever the service or its scheduler does next: the flags move on together and stay consistent. */
    method Step(a: Act)
      requires Valid() && Allowed(scheduler.c, View(), a)
      modifies this, scheduler
      ensures Valid() && View() == Shutdown.After(scheduler.c, old(View()), a)
    {
      ServiceStep(scheduler.c, View(), a);
      match a {
        case Work(e) => Drive(e);
        case Select(cause) => EndWait(cause);
        case CloseAdmission =>
          scheduler.Close();
          stage := Draining;
        case OwnerDone => StopHttp();
        case HttpDone(ok) => http := Some(if ok then Success else IoError);
        case JoinBoth => Join();
        case GraceExpired => stage := Exited;
      }
    }

    /** One event of the scheduler, perhaps a poll of the `run` future that this service holds. */
    method Drive(e: Event)
      requires Valid() && Allowed(scheduler.c, View(), Work(e))
      modifies this`driving, scheduler
      ensures View() == Shutdown.After(scheduler.c, old(View()), Work(e))
    {
      scheduler.Step(e);
      driving := driving || e.RunStart?;
    }

    /** One branch of `select!` has completed; the others are dropped. */
    method EndWait(cause: Cause)
      requires Valid() && Allowed(scheduler.c, View(), Select(cause))
      modifies this, scheduler
      ensures View() == Shutdown.After(scheduler.c, old(View()), Select(cause))
      ensures result == Success <==> cause == Notice
      ensures httpDone <==> cause.HttpEnded?
    {
      match cause {
        case Notice => result := Success;
        case NoticeFailed => result := IoError;
        case HttpEnded(ok) =>
          httpDone := true;
          result := if ok then Stopped else IoError;
        case RunEnded =>
          result := if scheduler.run.phase.error.Some? then TaskError else Stopped;
      }
      if !cause.HttpEnded? { httpDone := false; }
      if scheduler.run.phase.Asleep? { scheduler.Dispatch(RunCancel); }
      stage, driving := Closing, false;
    }

    /** `run` has returned in the drain: only now is HTTP told to stop. */
    method StopHttp()
      requires Allowed(scheduler.c, View(), OwnerDone)
      modifies this`owner, this`stopSent
      ensures View() == Shutdown.After(scheduler.c, old(View()), OwnerDone)
      ensures stopSent && (owner == Some(Success) <==> scheduler.run.phase.error.None?)
    {
      owner := Some(if scheduler.run.phase.error.Some? then TaskError else Success);
      stopSent := true;
    }

    /** Both halves of the drain have ended: the first failure among owner, HTTP and wait is the verdict. */
    method Join()
      requires Allowed(scheduler.c, View(), JoinBoth)
      modifies this`stage
      ensures View() == Shutdown.After(scheduler.c, old(View()), JoinBoth)
      ensures stage == Over(Success) <==> owner == Some(Success) && (http.None? || http == Some(Success)) && result == Success
    {
      var verdict := owner.value;
      if verdict.Success? && http.Some? { verdict := http.value; }
      if verdict.Success? { verdict := result; }
      stage := Over(verdict);
    }
  }
}
