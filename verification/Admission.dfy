/**
 Bounded FIFO admission as a step system (src/scheduler.rs).

 One event is one region that runs without interference from another thread: a region
 under the state mutex, one operation of the fair semaphore, one access to the session
 pool, or one completed poll of the driver. Everything between two such regions may be
 interleaved with any other event.

 The semaphore is the foreign part: a list of registered waiters in registration order,
 permits handed to the head of the list, and a waiter that is dropped leaving the list or
 giving back the permit it was handed. Instants are natural numbers.
 */
module Admission {
  import opened Wrappers

  datatype Config = Config(
    slots: nat, capacity: nat, queueTimeout: nat, inferenceTimeout: nat,
    // the last instant the clock can represent
    clockEnd: nat)

  datatype Fault = QueueFull | QueueTimeout | InferenceTimeout | Unavailable | Inference | TaskFailed

  datatype Outcome = Served | Refused(fault: Fault) | Cancelled

  /** What a request has received from the semaphore: nothing, a permit it has not
      noticed yet, or a permit object it owns. */
  datatype Seat = NoPermit | Granted | Held

  /** The caller's future. */
  datatype Caller =
    | Fresh                              // never polled
    | Parked                             // pending inside `acquire`
    | Leaving(outcome: Outcome)          // its locals are being dropped
    | Admitted                           // owns a `Running`, has not reached the spawn region
    | Awaiting                           // waits for the result channel
    | Done(final: Outcome, at: nat)

  datatype Exit = Normal(ok: bool) | Panic(lost: bool)

  /** The blocking task. `lost` says that a panic destroyed the session it had popped. */
  datatype Task =
    | NoTask
    | Spawned
    | Working                            // has popped a session
    | Finished(ok: bool)                 // session pushed back, `Running` not fully dropped
    | Sent(ok: bool)
    | Panicking(lost: bool)              // unwinding, `Running::drop` not entered
    | Unwinding(lost: bool)              // `Running::drop` has closed admission
    | Complete(exit: Exit)               // the join handle is ready
    | Joined(exit: Exit)

  datatype Job = Job(
    caller: Caller, task: Task, seat: Seat,
    queued: bool,                        // `Waiting::queued`
    counted: bool,                       // its `Running` is counted in `inflight`
    limit: Option<nat>,                  // queue deadline, once queued
    started: Option<nat>)                // instant at which `Waiting::start` succeeded

  const NEW_JOB := Job(Fresh, NoTask, NoPermit, false, false, None, None)

  /** The future of `Dispatcher::run`. */
  datatype Driver =
    | Absent
    | Polling
    | Failing(task: nat)                 // joined a panicked task, has not closed yet
    | Asleep
    | Returned(error: Option<nat>)

  /** The fields of the mutex-guarded record `State`. */
  datatype Gate = Gate(accepting: bool, waiting: int, inflight: int, tasks: set<nat>, driver: Option<nat>)

  datatype Semaphore = Semaphore(free: int, line: seq<nat>, closed: bool)

  /** The driver. `told` is history: some `run` has already returned an error. */
  datatype Run = Run(phase: Driver, epoch: nat, joinWaker: Option<nat>, wake: bool, failure: Option<nat>, told: bool)

  datatype State = State(gate: Gate, slots: Semaphore, sessions: int, jobs: seq<Job>, now: nat, run: Run)

  datatype Event =
    | Arrive
    | Poll(i: nat, t1: nat, t2: nat, t3: nat, fired: bool)
    | Abandon(i: nat)
    | Release(i: nat)
    | DropEntry(i: nat)
    | Spawn(i: nat)
    | Begin(i: nat)
    | Finish(i: nat, ok: bool)
    | Fail(i: nat)
    | FailClose(i: nat)
    | Uncount(i: nat)
    | Send(i: nat)
    | Conclude(i: nat)
    | Settle(i: nat, t: nat)
    | Close
    | RunStart
    | RunPoll(k: Option<nat>)
    | RunFail
    | RunCancel

  function Init(c: Config): State {
    State(Gate(true, 0, 0, {}, None), Semaphore(c.slots, [], false), c.slots, [], 0,
          Run(Absent, 0, None, false, None, false))
  }

  // ---- The regions ----

  function Put(s: State, i: nat, j: Job): State
    requires i < |s.jobs|
  {
    s.(jobs := s.jobs[i := j])
  }

  function Leave(s: State, i: nat, o: Outcome): State
    requires i < |s.jobs|
  {
    Put(s, i, s.jobs[i].(caller := Leaving(o)))
  }

  predicate LineInRange(s: State) {
    forall k | 0 <= k < |s.slots.line| :: s.slots.line[k] < |s.jobs|
  }

  /** The semaphore receives one permit: the first registered waiter gets it. */
  function Grant(s: State): State
    requires LineInRange(s)
  {
    if s.slots.line == [] then s.(slots := s.slots.(free := s.slots.free + 1))
    else
      var h := s.slots.line[0];
      Put(s.(slots := s.slots.(line := s.slots.line[1..])), h, s.jobs[h].(seat := Granted))
  }

  /** `driver.take()` followed by `wake()`. */
  function WakeDriver(s: State): State {
    s.(gate := s.gate.(driver := None), run := s.run.(wake := s.run.wake || s.gate.driver == Some(s.run.epoch)))
  }

  /** `Shared::close`; closing the semaphore drains its list. */
  function Shut(s: State): State {
    WakeDriver(s.(gate := s.gate.(accepting := false), slots := s.slots.(closed := true, line := [])))
  }

  function Position(line: seq<nat>, i: nat): (k: nat)
    requires i in line
    ensures k < |line| && line[k] == i
  {
    if line[0] == i then 0 else 1 + Position(line[1..], i)
  }

  function Without(line: seq<nat>, i: nat): seq<nat>
    requires i in line
  {
    var k := Position(line, i);
    line[..k] + line[k + 1..]
  }

  /** `Waiting::start`; j is the job with the permit in hand. */
  function Start(c: Config, s: State, i: nat, j: Job, t: nat): State
    requires i < |s.jobs|
  {
    if j.queued && j.limit.Some? && t >= j.limit.value then Put(s, i, j.(caller := Leaving(Refused(QueueTimeout))))
    else if t + c.inferenceTimeout > c.clockEnd then Put(s, i, j.(caller := Leaving(Refused(Unavailable))))
    else
      Put(s.(gate := s.gate.(waiting := if j.queued then s.gate.waiting - 1 else s.gate.waiting, inflight := s.gate.inflight + 1)), i,
          j.(caller := Admitted, queued := false, counted := true, started := Some(t)))
  }

  /** The timer is polled last; it may notice at t that the queue deadline has passed. */
  function Nap(j: Job, t: nat, fired: bool): Job {
    if fired && j.limit.Some? && t >= j.limit.value then j.(caller := Leaving(Refused(QueueTimeout))) else j
  }

  /** The semaphore has no permit to hand over: the waiter is registered, and queued if
      this is the first time. */
  function Pend(c: Config, s: State, i: nat, t2: nat, t3: nat, fired: bool): State
    requires i < |s.jobs|
  {
    var j := s.jobs[i];
    var s1 := if i in s.slots.line then s else s.(slots := s.slots.(line := s.slots.line + [i]));
    if j.queued then Put(s1, i, Nap(j, t3, fired))
    else if s.gate.waiting == c.capacity then Leave(s1, i, Refused(QueueFull))
    else if t2 + c.queueTimeout > c.clockEnd then Leave(s1, i, Refused(Unavailable))
    else
      Put(s1.(gate := s.gate.(waiting := s.gate.waiting + 1)), i,
          Nap(j.(caller := Parked, queued := true, limit := Some(t2 + c.queueTimeout)), t3, fired))
  }

  /** One poll of `acquire`; t1, t2 and t3 are its readings of the clock. */
  function PollAcquire(c: Config, s: State, i: nat, t1: nat, t2: nat, t3: nat, fired: bool): State
    requires i < |s.jobs|
  {
    var j := s.jobs[i];
    if !s.gate.accepting then Leave(s, i, Refused(Unavailable))
    else if j.queued && j.limit.Some? && t1 >= j.limit.value then Leave(s, i, Refused(QueueTimeout))
    else if s.slots.closed then Leave(s, i, Refused(Unavailable))
    else if j.seat.Granted? then Start(c, s, i, j.(seat := Held), t2)
    else if i !in s.slots.line && s.slots.free > 0 then Start(c, s.(slots := s.slots.(free := s.slots.free - 1)), i, j.(seat := Held), t2)
    else Pend(c, s, i, t2, t3, fired)
  }

  predicate Ready(t: Task) {
    t.Sent? || t.Complete? || t.Joined?
  }

  function ResultOf(t: Task): Outcome
    requires Ready(t)
  {
    match t
    case Sent(ok) => if ok then Served else Refused(Inference)
    case Complete(x) => ExitOutcome(x)
    case Joined(x) => ExitOutcome(x)
  }

  function ExitOutcome(x: Exit): Outcome {
    match x
    case Normal(ok) => if ok then Served else Refused(Inference)
    case Panic(_) => Refused(TaskFailed)
  }

  predicate Ended(s: State, i: nat) {
    i < |s.jobs| && s.jobs[i].task.Complete?
  }

  /** A `Running` is being dropped, by its caller or by its task. */
  predicate DroppingRunning(j: Job) {
    j.caller.Leaving? || j.task.Finished? || j.task.Unwinding?
  }

  predicate Enabled(c: Config, s: State, e: Event) {
    match e
    case Arrive => true
    case Poll(i, t1, t2, t3, _) =>
      i < |s.jobs| && (s.jobs[i].caller.Fresh? || s.jobs[i].caller.Parked?) && s.now <= t1 <= t2 <= t3
    case Abandon(i) =>
      i < |s.jobs| && (s.jobs[i].caller.Fresh? || s.jobs[i].caller.Parked? || s.jobs[i].caller.Awaiting?)
    case Release(i) =>
      i < |s.jobs| && DroppingRunning(s.jobs[i]) && !s.jobs[i].counted && (i in s.slots.line || !s.jobs[i].seat.NoPermit?)
    case DropEntry(i) =>
      i < |s.jobs| && s.jobs[i].caller.Leaving? && !s.jobs[i].counted && i !in s.slots.line && s.jobs[i].seat.NoPermit?
    case Spawn(i) => i < |s.jobs| && s.jobs[i].caller.Admitted?
    case Begin(i) => i < |s.jobs| && s.jobs[i].task.Spawned?
    case Finish(i, _) => i < |s.jobs| && s.jobs[i].task.Working?
    case Fail(i) => i < |s.jobs| && (s.jobs[i].task.Spawned? || s.jobs[i].task.Working?)
    case FailClose(i) => i < |s.jobs| && s.jobs[i].task.Panicking?
    case Uncount(i) => i < |s.jobs| && DroppingRunning(s.jobs[i]) && s.jobs[i].counted
    case Send(i) => i < |s.jobs| && s.jobs[i].task.Finished? && !s.jobs[i].counted && s.jobs[i].seat.NoPermit?
    case Conclude(i) =>
      i < |s.jobs| && (s.jobs[i].task.Sent?
                       || (s.jobs[i].task.Unwinding? && !s.jobs[i].counted && s.jobs[i].seat.NoPermit?))
    case Settle(i, t) =>
      i < |s.jobs| && s.jobs[i].caller.Awaiting? && s.jobs[i].started.Some? && s.now <= t
      && (Ready(s.jobs[i].task) || t >= s.jobs[i].started.value + c.inferenceTimeout)
    case Close => true
    case RunStart => s.run.phase.Absent? || s.run.phase.Returned?
    case RunPoll(k) =>
      (s.run.phase.Polling? || s.run.phase.Asleep?)
      && (match k case Some(i) => i in s.gate.tasks && Ended(s, i) case None => forall i | i in s.gate.tasks :: !Ended(s, i))
    case RunFail => s.run.phase.Failing?
    case RunCancel => s.run.phase.Asleep?
  }

  /** One poll of the driver future, up to its next result. */
  function PollDriver(s: State, k: Option<nat>): State
    requires k.Some? ==> Ended(s, k.value)
  {
    var s1 := s.(gate := s.gate.(driver := Some(s.run.epoch)), run := s.run.(wake := false));
    match k
    case Some(i) =>
      var x := s.jobs[i].task.exit;
      Put(s1.(gate := s1.gate.(tasks := s.gate.tasks - {i}), run := s1.run.(phase := if x.Panic? then Failing(i) else Polling)), i,
          s.jobs[i].(task := Joined(x)))
    case None =>
      if s.gate.tasks != {} then s1.(run := s1.run.(joinWaker := Some(s.run.epoch), phase := Asleep))
      else if s.gate.accepting then s1.(run := s1.run.(phase := Asleep))
      else s1.(run := s1.run.(phase := Returned(s.run.failure), failure := None, told := s.run.told || s.run.failure.Some?))
  }

  function Next(c: Config, s: State, e: Event): State
    requires LineInRange(s) && Enabled(c, s, e)
  {
    match e
    case Arrive => s.(jobs := s.jobs + [NEW_JOB])
    case Poll(i, t1, t2, t3, fired) => PollAcquire(c, s, i, t1, t2, t3, fired).(now := t3)
    case Abandon(i) =>
      if s.jobs[i].caller.Parked? then Leave(s, i, Cancelled)
      else Put(s, i, s.jobs[i].(caller := Done(Cancelled, s.now)))
    case Release(i) =>
      if i in s.slots.line then s.(slots := s.slots.(line := Without(s.slots.line, i)))
      else Grant(Put(s, i, s.jobs[i].(seat := NoPermit)))
    case DropEntry(i) =>
      var j := s.jobs[i];
      Put(s.(gate := s.gate.(waiting := if j.queued then s.gate.waiting - 1 else s.gate.waiting)), i,
          j.(queued := false, caller := Done(j.caller.outcome, s.now)))
    case Spawn(i) =>
      if !s.gate.accepting then Leave(s, i, Refused(Unavailable))
      else WakeDriver(Put(s.(gate := s.gate.(tasks := s.gate.tasks + {i})), i, s.jobs[i].(caller := Awaiting, task := Spawned)))
    case Begin(i) =>
      if s.sessions > 0 then Put(s.(sessions := s.sessions - 1), i, s.jobs[i].(task := Working))
      else Shut(Put(s, i, s.jobs[i].(task := Finished(false))))
    case Finish(i, ok) => Put(s.(sessions := s.sessions + 1), i, s.jobs[i].(task := Finished(ok)))
    case Fail(i) => Put(s, i, s.jobs[i].(task := Panicking(s.jobs[i].task.Working?)))
    case FailClose(i) => Shut(Put(s, i, s.jobs[i].(task := Unwinding(s.jobs[i].task.lost))))
    case Uncount(i) => Put(s.(gate := s.gate.(inflight := s.gate.inflight - 1)), i, s.jobs[i].(counted := false))
    case Send(i) => Put(s, i, s.jobs[i].(task := Sent(s.jobs[i].task.ok)))
    case Conclude(i) =>
      var x := if s.jobs[i].task.Sent? then Normal(s.jobs[i].task.ok) else Panic(s.jobs[i].task.lost);
      Put(s.(run := s.run.(joinWaker := None, wake := s.run.wake || s.run.joinWaker == Some(s.run.epoch))), i, s.jobs[i].(task := Complete(x)))
    case Settle(i, t) =>
      var j := s.jobs[i];
      var o := if t >= j.started.value + c.inferenceTimeout then Refused(InferenceTimeout) else ResultOf(j.task);
      Put(s.(now := t), i, j.(caller := Done(o, t)))
    case Close => Shut(s)
    case RunStart => s.(run := s.run.(phase := Polling, epoch := s.run.epoch + 1, wake := false))
    case RunPoll(k) => PollDriver(s, k)
    case RunFail =>
      Shut(s.(run := s.run.(phase := Polling, failure := if s.run.failure.None? then Some(s.run.phase.task) else s.run.failure)))
    case RunCancel => s.(run := s.run.(phase := Absent))
  }
}
