/**
 The scheduler's mutable records, updated in place (src/scheduler.rs). Each method is one
 region of the step system: its new state is the successor of its old one for one event,
 and `waiting` and `inflight` are unsigned, so no decrement underflows.
 */
module AdmissionState {
  import opened Wrappers
  import opened Admission
  import opened AdmissionSafety
  import opened AdmissionSteps

  /** What the counters owe to the job of event e. */
  predicate Backed(s: State, e: Event) {
    && (e.Poll? || e.DropEntry? ==> e.i < |s.jobs| && (s.jobs[e.i].queued ==> s.gate.waiting > 0))
    && (e.Uncount? ==> s.gate.inflight > 0)
  }

  lemma EnabledIsBacked(c: Config, s: State, e: Event)
    requires Inv(c, s) && Enabled(c, s, e)
    ensures Backed(s, e)
  {
    if e.Poll? || e.DropEntry? || e.Uncount? { SumAtLeast(Loads(s.jobs), e.i, |s.jobs|); }
  }

  class Scheduler {
    const c: Config

    // the mutex-guarded record
    var accepting: bool
    var waiting: nat
    var inflight: nat
    var tasks: set<nat>
    var driver: Option<nat>
    // the semaphore
    var free: nat
    var line: seq<nat>
    var closed: bool
    // the session pool, the requests and the clock
    var sessions: nat
    var jobs: seq<Job>
    var now: nat
    // the driver of the task set
    var run: Run

    ghost function View(): State
      reads this
    {
      State(Gate(accepting, waiting, inflight, tasks, driver), Semaphore(free, line, closed), sessions, jobs, now, run)
    }

    ghost predicate Valid()
      reads this
    {
      Inv(c, View())
    }

    /** Event e is enabled, and the counters it decrements are not zero. */
    ghost predicate Can(e: Event)
      reads this
    {
      LineInRange(View()) && Enabled(c, View(), e) && Backed(View(), e)
    }

    constructor (c: Config)
      ensures this.c == c && View() == Init(c) && Valid()
    {
      this.c := c;
      accepting, waiting, inflight, tasks, driver := true, 0, 0, {}, None;
      free, line, closed := c.slots, [], false;
      sessions, jobs, now := c.slots, [], 0;
      run := Run(Absent, 0, None, false, None, false);
      new;
      InitInv(c);
    }

    /** Whatever region runs next, in whatever order threads reach them: the records move
        to the successor state and stay consistent. */
    method Step(e: Event)
      requires Valid() && Enabled(c, View(), e)
      modifies this
      ensures Valid() && View() == Next(c, old(View()), e)
    {
      StepInv(c, View(), e);
      EnabledIsBacked(c, View(), e);
      Dispatch(e);
    }

    method Dispatch(e: Event)
      requires Can(e)
      modifies this
      ensures View() == Next(c, old(View()), e)
    {
      match e {
        case Arrive => jobs := jobs + [NEW_JOB];
        case Poll(i, t1, t2, t3, fired) => PollAcquireOnce(i, t1, t2, t3, fired);
        case Abandon(i) => DropCaller(i);
        case Release(i) => DropPermit(i);
        case DropEntry(i) => DropWaiting(i);
        case Spawn(i) => SpawnTask(i);
        case Begin(i) => PopSession(i);
        case Finish(i, ok) => PushSession(i, ok);
        case Fail(i) => jobs := jobs[i := jobs[i].(task := Panicking(jobs[i].task.Working?))];
        case FailClose(i) =>
          jobs := jobs[i := jobs[i].(task := Unwinding(jobs[i].task.lost))];
          Close();
        case Uncount(i) => DropRunning(i);
        case Send(i) => jobs := jobs[i := jobs[i].(task := Sent(jobs[i].task.ok))];
        case Conclude(i) => EndTask(i);
        case Settle(i, t) => SettleCaller(i, t);
        case Close => Close();
        case RunStart => run := run.(phase := Polling, epoch := run.epoch + 1, wake := false);
        case RunPoll(k) => PollTasks(k);
        case RunFail => StoreFailure();
        case RunCancel => run := run.(phase := Absent);
      }
    }

    /** `Shared::close` */
    method Close()
      modifies this
      ensures View() == Shut(old(View()))
      ensures !accepting && closed && line == [] && driver.None?
      ensures jobs == old(jobs) && tasks == old(tasks) && waiting == old(waiting) && inflight == old(inflight)
    {
      accepting := false;
      closed := true;
      line := [];
      TakeAndWake();
    }

    /** `driver.take()`, and wake what was taken. */
    method TakeAndWake()
      modifies this`driver, this`run
      ensures View() == WakeDriver(old(View()))
      ensures driver.None? && (old(driver) == Some(run.epoch) ==> run.wake)
    {
      run := run.(wake := run.wake || driver == Some(run.epoch));
      driver := None;
    }

    /** One poll of the future of `Shared::acquire`. */
    method PollAcquireOnce(i: nat, t1: nat, t2: nat, t3: nat, fired: bool)
      requires Can(Event.Poll(i, t1, t2, t3, fired))
      modifies this
      ensures View() == PollAcquire(c, old(View()), i, t1, t2, t3, fired).(now := t3)
    {
      var j := jobs[i];
      now := t3;
      if !accepting {
        jobs := jobs[i := j.(caller := Leaving(Refused(Unavailable)))];
      } else if j.queued && j.limit.Some? && t1 >= j.limit.value {
        jobs := jobs[i := j.(caller := Leaving(Refused(QueueTimeout)))];
      } else if closed {
        jobs := jobs[i := j.(caller := Leaving(Refused(Unavailable)))];
      } else if j.seat.Granted? || (i !in line && free > 0) {
        TakePermit(i, t2);
      } else {
        Wait(i, t2, t3, fired);
      }
    }

    /** A permit is at hand: the one that was handed over, or a free one. */
    method TakePermit(i: nat, t: nat)
      requires i < |jobs| && (jobs[i].queued ==> waiting > 0) && (jobs[i].seat.Granted? || free > 0)
      modifies this`free, this`waiting, this`inflight, this`jobs
      ensures var s, j := old(View()), old(jobs)[i].(seat := Held);
              View() == if old(jobs)[i].seat.Granted? then Start(c, s, i, j, t)
                        else Start(c, s.(slots := s.slots.(free := s.slots.free - 1)), i, j, t)
    {
      var j := jobs[i];
      if !j.seat.Granted? {
        free := free - 1;
      }
      StartWork(i, j.(seat := Held), t);
    }

    /** No permit is to be had: register, and join the queue if there is room in it. */
    method Wait(i: nat, t2: nat, t3: nat, fired: bool)
      requires i < |jobs|
      modifies this`line, this`jobs, this`waiting
      ensures View() == Pend(c, old(View()), i, t2, t3, fired)
      ensures old(waiting) <= c.capacity ==> waiting <= c.capacity
      ensures waiting == old(waiting) + (if !old(jobs)[i].queued && jobs[i].queued then 1 else 0)
      ensures i in line && forall x | x in old(line) :: x in line
    {
      var j := jobs[i];
      if i !in line {
        line := line + [i];
      }
      if !j.queued {
        if waiting == c.capacity {
          jobs := jobs[i := j.(caller := Leaving(Refused(QueueFull)))];
          return;
        }
        if t2 + c.queueTimeout > c.clockEnd {
          jobs := jobs[i := j.(caller := Leaving(Refused(Unavailable)))];
          return;
        }
        waiting := waiting + 1;
        j := j.(caller := Parked, queued := true, limit := Some(t2 + c.queueTimeout));
      }
      if fired && j.limit.Some? && t3 >= j.limit.value {
        j := j.(caller := Leaving(Refused(QueueTimeout)));
      }
      jobs := jobs[i := j];
    }

    /** `Waiting::start` */
    method StartWork(i: nat, j: Job, t: nat)
      requires i < |jobs| && (j.queued ==> waiting > 0)
      modifies this`waiting, this`inflight, this`jobs
      ensures View() == Start(c, old(View()), i, j, t)
      ensures jobs[i].caller.Admitted? ==>
        inflight == old(inflight) + 1 && waiting == old(waiting) - (if j.queued then 1 else 0)
      ensures !jobs[i].caller.Admitted? ==> inflight == old(inflight) && waiting == old(waiting) && jobs[i].queued == j.queued
    {
      if j.queued && j.limit.Some? && t >= j.limit.value {
        jobs := jobs[i := j.(caller := Leaving(Refused(QueueTimeout)))];
      } else if t + c.inferenceTimeout > c.clockEnd {
        jobs := jobs[i := j.(caller := Leaving(Refused(Unavailable)))];
      } else {
        if j.queued {
          waiting := waiting - 1;
        }
        inflight := inflight + 1;
        jobs := jobs[i := j.(caller := Admitted, queued := false, counted := true, started := Some(t))];
      }
    }

    /** The caller's future is dropped. */
    method DropCaller(i: nat)
      requires Can(Abandon(i))
      modifies this`jobs
      ensures View() == Next(c, old(View()), Abandon(i))
    {
      var gone := if jobs[i].caller.Parked? then Leaving(Cancelled) else Done(Cancelled, now);
      jobs := jobs[i := jobs[i].(caller := gone)];
    }

    /** A semaphore waiter or an owned permit is dropped. */
    method DropPermit(i: nat)
      requires Can(Release(i))
      modifies this`jobs, this`line, this`free
      ensures View() == Next(c, old(View()), Release(i))
      // who gets the permit: nobody, the first in line, or the semaphore
      ensures i in old(line) ==> free == old(free) && i in old(line) && |line| == |old(line)| - 1
      ensures i !in old(line) && old(line) != [] ==>
        free == old(free) && line == old(line)[1..] && jobs[old(line)[0]].seat.Granted?
      ensures i !in old(line) && old(line) == [] ==> free == old(free) + 1
    {
      if i in line {
        var k := Position(line, i);
        line := line[..k] + line[k + 1..];
      } else {
        jobs := jobs[i := jobs[i].(seat := NoPermit)];
        if line == [] {
          free := free + 1;
        } else {
          var h := line[0];
          line := line[1..];
          jobs := jobs[h := jobs[h].(seat := Granted)];
        }
      }
    }

    /** `Drop for Waiting` */
    method DropWaiting(i: nat)
      requires Can(DropEntry(i))
      modifies this`jobs, this`waiting
      ensures View() == Next(c, old(View()), DropEntry(i))
      ensures waiting == old(waiting) - (if old(jobs)[i].queued then 1 else 0) && !jobs[i].queued
    {
      var j := jobs[i];
      if j.queued {
        waiting := waiting - 1;
      }
      jobs := jobs[i := j.(queued := false, caller := Done(j.caller.outcome, now))];
    }

    /** The locked region of `Shared::execute`. */
    method SpawnTask(i: nat)
      requires Can(Spawn(i))
      modifies this
      ensures View() == Next(c, old(View()), Spawn(i))
      ensures tasks == (if old(accepting) then old(tasks) + {i} else old(tasks)) && inflight == old(inflight)
    {
      if !accepting {
        jobs := jobs[i := jobs[i].(caller := Leaving(Refused(Unavailable)))];
      } else {
        tasks := tasks + {i};
        jobs := jobs[i := jobs[i].(caller := Awaiting, task := Spawned)];
        TakeAndWake();
      }
    }

    method PopSession(i: nat)
      requires Can(Begin(i))
      modifies this
      ensures View() == Next(c, old(View()), Begin(i))
      ensures old(sessions) > 0 ==> sessions == old(sessions) - 1 && accepting == old(accepting) && jobs[i].task.Working?
      ensures old(sessions) == 0 ==> !accepting && jobs[i].task == Finished(false)
    {
      if sessions > 0 {
        sessions := sessions - 1;
        jobs := jobs[i := jobs[i].(task := Working)];
      } else {
        jobs := jobs[i := jobs[i].(task := Finished(false))];
        Close();
      }
    }

    method PushSession(i: nat, ok: bool)
      requires Can(Finish(i, ok))
      modifies this`jobs, this`sessions
      ensures View() == Next(c, old(View()), Finish(i, ok))
      ensures sessions == old(sessions) + 1 && jobs[i].seat == old(jobs)[i].seat && jobs[i].counted == old(jobs)[i].counted
    {
      sessions := sessions + 1;
      jobs := jobs[i := jobs[i].(task := Finished(ok))];
    }

    /** `Drop for Running`, after it has closed admission in a panic. */
    method DropRunning(i: nat)
      requires Can(Uncount(i))
      modifies this`jobs, this`inflight
      ensures View() == Next(c, old(View()), Uncount(i))
    {
      inflight := inflight - 1;
      jobs := jobs[i := jobs[i].(counted := false)];
    }

    /** The join handle becomes ready and wakes the registered driver. */
    method EndTask(i: nat)
      requires Can(Conclude(i))
      modifies this`jobs, this`run
      ensures View() == Next(c, old(View()), Conclude(i))
    {
      var t := jobs[i].task;
      jobs := jobs[i := jobs[i].(task := Complete(if t.Sent? then Normal(t.ok) else Panic(t.lost)))];
      run := run.(wake := run.wake || run.joinWaker == Some(run.epoch), joinWaker := None);
    }

    /** The end of `Shared::execute`. */
    method SettleCaller(i: nat, t: nat)
      requires Can(Settle(i, t))
      modifies this`jobs, this`now
      ensures View() == Next(c, old(View()), Settle(i, t))
      ensures jobs[i].caller.Done? && jobs[i].caller.at == t
      ensures jobs[i].caller.final == Refused(InferenceTimeout) <==> t >= jobs[i].started.value + c.inferenceTimeout
    {
      var j := jobs[i];
      now := t;
      var outcome;
      if t >= j.started.value + c.inferenceTimeout {
        outcome := Refused(InferenceTimeout);
      } else {
        outcome := ResultOf(j.task);
      }
      jobs := jobs[i := j.(caller := Done(outcome, t))];
    }

    /** The closure that `Dispatcher::run` polls. */
    method PollTasks(k: Option<nat>)
      requires Can(RunPoll(k))
      modifies this`jobs, this`tasks, this`driver, this`run
      ensures View() == PollDriver(old(View()), k)
      ensures run.phase.Returned? ==> tasks == {} && !accepting && run.failure.None?
      ensures k.Some? ==> k.value !in tasks
    {
      driver := Some(run.epoch);
      run := run.(wake := false);
      if k.Some? {
        var i := k.value;
        var x := jobs[i].task.exit;
        tasks := tasks - {i};
        jobs := jobs[i := jobs[i].(task := Joined(x))];
        run := run.(phase := if x.Panic? then Failing(i) else Polling);
      } else if tasks != {} {
        run := run.(joinWaker := Some(run.epoch), phase := Asleep);
      } else if accepting {
        run := run.(phase := Asleep);
      } else {
        run := run.(phase := Returned(run.failure), failure := None, told := run.told || run.failure.Some?);
      }
    }

    /** `run` has joined a panicked task: close, and keep the first error. */
    method StoreFailure()
      requires Can(RunFail)
      modifies this
      ensures View() == Next(c, old(View()), RunFail)
      ensures !accepting && run.failure == (if old(run.failure).Some? then old(run.failure) else Some(old(run.phase.task)))
    {
      var i := run.phase.task;
      if run.failure.None? {
        run := run.(failure := Some(i));
      }
      run := run.(phase := Polling);
      Close();
    }
  }
}
