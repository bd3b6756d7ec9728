/**
 What every step of the admission protocol keeps. `Inv` is inductive: it holds initially
 and after every event, so it holds in every reachable state.
 */
module AdmissionSafety {
  import opened Wrappers
  import opened Admission

  // ---- Counting ----

  /** What the jobs hold between them: permits, entries counted in `waiting`, guards counted
      in `inflight`, sessions out of the pool for good or for now, and tasks about to pop one. */
  datatype Load = Load(permits: int, queued: int, counted: int, out: int, spawned: int)

  function One(b: bool): int { if b then 1 else 0 }

  predicate Out(t: Task) {
    t.Working? || ((t.Panicking? || t.Unwinding?) && t.lost) || ((t.Complete? || t.Joined?) && t.exit.Panic? && t.exit.lost)
  }

  function Weigh(j: Job): Load {
    Load(One(!j.seat.NoPermit?), One(j.queued), One(j.counted), One(Out(j.task)), One(j.task.Spawned?))
  }

  function Plus(a: Load, b: Load): Load {
    Load(a.permits + b.permits, a.queued + b.queued, a.counted + b.counted, a.out + b.out, a.spawned + b.spawned)
  }

  function Minus(a: Load, b: Load): Load {
    Load(a.permits - b.permits, a.queued - b.queued, a.counted - b.counted, a.out - b.out, a.spawned - b.spawned)
  }

  function Sum(loads: seq<Load>, n: nat): Load
    requires n <= |loads|
  {
    if n == 0 then Load(0, 0, 0, 0, 0) else Plus(Sum(loads, n - 1), loads[n - 1])
  }

  function Loads(jobs: seq<Job>): (r: seq<Load>)
    ensures |r| == |jobs|
    ensures forall i | 0 <= i < |jobs| :: r[i] == Weigh(jobs[i])
  {
    seq(|jobs|, i requires 0 <= i < |jobs| => Weigh(jobs[i]))
  }

  function Total(jobs: seq<Job>): Load {
    Sum(Loads(jobs), |jobs|)
  }

  lemma {:induction false} SumCongruent(a: seq<Load>, b: seq<Load>, n: nat)
    requires n <= |a| && n <= |b|
    requires forall k | 0 <= k < n :: a[k] == b[k]
    ensures Sum(a, n) == Sum(b, n)
  {
    if n == 0 {
    } else {
      SumCongruent(a, b, n - 1);
    }
  }

  lemma {:induction false} SumPut(loads: seq<Load>, i: nat, w: Load, n: nat)
    requires i < n <= |loads|
    ensures Sum(loads[i := w], n) == Plus(Minus(Sum(loads, n), loads[i]), w)
  {
    if i == n - 1 {
      SumCongruent(loads[i := w], loads, i);
    } else {
      SumPut(loads, i, w, n - 1);
    }
  }

  lemma TotalPut(jobs: seq<Job>, i: nat, j: Job)
    requires i < |jobs|
    ensures Total(jobs[i := j]) == Plus(Minus(Total(jobs), Weigh(jobs[i])), Weigh(j))
  {
    assert Loads(jobs[i := j]) == Loads(jobs)[i := Weigh(j)];
    SumPut(Loads(jobs), i, Weigh(j), |jobs|);
  }

  lemma TotalArrive(jobs: seq<Job>)
    ensures Total(jobs + [NEW_JOB]) == Total(jobs)
  {
    SumCongruent(Loads(jobs + [NEW_JOB]), Loads(jobs), |jobs|);
  }

  predicate AtLeast(a: Load, b: Load) {
    a.permits >= b.permits && a.queued >= b.queued && a.counted >= b.counted && a.out >= b.out && a.spawned >= b.spawned
  }

  /** Each total is at least what any one job adds to it, hence not negative. */
  lemma {:induction false} SumAtLeast(loads: seq<Load>, i: nat, n: nat)
    requires n <= |loads|
    requires forall k | 0 <= k < n :: AtLeast(loads[k], Load(0, 0, 0, 0, 0))
    ensures AtLeast(Sum(loads, n), Load(0, 0, 0, 0, 0))
    ensures i < n ==> AtLeast(Sum(loads, n), loads[i])
  {
    if n == 0 {
    } else {
      SumAtLeast(loads, i, n - 1);
    }
  }

  // ---- The invariant ----

  predicate Live(t: Task) {
    !t.NoTask? && !t.Joined?
  }

  predicate Panicked(t: Task) {
    t.Unwinding? || (t.Complete? && t.exit.Panic?) || (t.Joined? && t.exit.Panic?)
  }

  predicate DoneOk(c: Config, j: Job, o: Outcome, at: nat) {
    && !j.queued
    && (j.task.NoTask? ==> !j.counted && j.seat.NoPermit?)
    && (o.Served? ==> j.started.Some? && j.started.value <= at < j.started.value + c.inferenceTimeout
                      && Ready(j.task) && ResultOf(j.task) == Served)
    && (o.Refused? && EarlyFault(o.fault) ==> j.task.NoTask?)
    && (o.Refused? && !EarlyFault(o.fault) ==>
          j.started.Some? && !j.task.NoTask?
          && (o.fault.InferenceTimeout? <==> at >= j.started.value + c.inferenceTimeout))
  }

  /** Faults that are decided before any work is spawned. */
  predicate EarlyFault(f: Fault) {
    f.QueueFull? || f.QueueTimeout? || f.Unavailable?
  }

  predicate CallerOk(c: Config, j: Job) {
    match j.caller
    case Fresh => !j.queued && !j.counted && j.seat.NoPermit? && j.task.NoTask? && j.limit.None? && j.started.None?
    case Parked => j.queued && !j.counted && !j.seat.Held? && j.task.NoTask? && j.limit.Some? && j.started.None?
    case Leaving(o) =>
      j.task.NoTask? && !o.Served? && (o.Refused? ==> EarlyFault(o.fault))
      && (j.counted ==> j.seat.Held? && !j.queued)
      && (j.queued ==> j.limit.Some?)
    case Admitted => !j.queued && j.counted && j.seat.Held? && j.task.NoTask? && j.started.Some?
    case Awaiting => !j.queued && !j.task.NoTask?
    case Done(o, at) => DoneOk(c, j, o, at)
  }

  predicate TaskOk(j: Job) {
    var t := j.task;
    && (t.Spawned? || t.Working? || t.Panicking? ==> j.counted && j.seat.Held?)
    && (t.Finished? || t.Unwinding? ==> !j.seat.Granted? && (j.counted ==> j.seat.Held?))
    && (Ready(t) ==> !j.counted && j.seat.NoPermit?)
  }

  predicate JobOk(c: Config, accepting: bool, now: nat, registered: bool, j: Job) {
    && CallerOk(c, j)
    && TaskOk(j)
    && (!j.task.NoTask? ==> j.started.Some? && (j.caller.Awaiting? || j.caller.Done?))
    && (registered ==> j.seat.NoPermit? && !j.counted && (j.caller.Parked? || j.caller.Leaving?))
    && (accepting && j.caller.Parked? ==> registered || j.seat.Granted?)
    && (accepting ==> !Panicked(j.task))
    && (j.started.Some? ==> j.started.value <= now)
    && (j.started.Some? && j.limit.Some? ==> j.started.value < j.limit.value)
  }

  ghost predicate JobsInv(c: Config, s: State) {
    forall i | 0 <= i < |s.jobs| :: JobOk(c, s.gate.accepting, s.now, i in s.slots.line, s.jobs[i])
  }

  ghost predicate CountInv(c: Config, s: State) {
    var t := Total(s.jobs);
    && 0 <= s.slots.free && s.slots.free + t.permits == c.slots
    && s.gate.waiting == t.queued <= c.capacity
    && s.gate.inflight == t.counted
    && s.sessions + t.out == c.slots
    && t.spawned <= s.sessions
  }

  ghost predicate LineInv(s: State) {
    && LineInRange(s)
    && (forall k, l | 0 <= k < l < |s.slots.line| :: s.slots.line[k] != s.slots.line[l])
    && (s.slots.free > 0 ==> s.slots.line == [])
    && (s.gate.accepting <==> !s.slots.closed)
    && (s.slots.closed ==> s.slots.line == [])
  }

  /** If the driver sleeps, then what it waits for will wake it: see src/scheduler.rs:275-283. */
  ghost predicate Covered(s: State) {
    || s.run.wake
    || (s.gate.accepting && s.gate.tasks == {} && s.gate.driver == Some(s.run.epoch))
    || (s.gate.tasks != {} && s.gate.driver == Some(s.run.epoch) && s.run.joinWaker == Some(s.run.epoch)
        && forall i | 0 <= i < |s.jobs| :: !s.jobs[i].task.Complete?)
  }

  ghost predicate DriverInv(s: State) {
    && (forall i | 0 <= i < |s.jobs| :: i in s.gate.tasks <==> Live(s.jobs[i].task))
    && (forall i | i in s.gate.tasks :: i < |s.jobs|)
    && (s.gate.driver.Some? ==> s.gate.driver.value <= s.run.epoch)
    && (s.run.joinWaker.Some? ==> s.run.joinWaker.value <= s.run.epoch)
    && (s.run.phase.Asleep? ==> Covered(s))
    && (s.run.phase.Returned? ==> !s.gate.accepting && s.gate.tasks == {} && s.run.failure.None?)
    && (s.run.phase.Failing? ==> IsPanic(s, s.run.phase.task))
    && (s.run.phase.Returned? && s.run.phase.error.Some? ==> IsPanic(s, s.run.phase.error.value) && s.run.told)
    && (s.run.failure.Some? ==> IsPanic(s, s.run.failure.value) && !s.gate.accepting)
    && (forall i | 0 <= i < |s.jobs| :: PanicExit(s.jobs[i].task) ==> s.run.failure.Some? || s.run.phase.Failing? || s.run.told)
  }

  /** The joined task `i` ended in a `JoinError`. */
  predicate IsPanic(s: State, i: nat) {
    i < |s.jobs| && PanicExit(s.jobs[i].task)
  }

  predicate PanicExit(t: Task) {
    t.Joined? && t.exit.Panic?
  }

  ghost predicate Inv(c: Config, s: State) {
    CountInv(c, s) && LineInv(s) && JobsInv(c, s) && DriverInv(s)
  }

  lemma InitInv(c: Config)
    ensures Inv(c, Init(c))
  {
  }

  // ---- Bounds that follow from the counts ----

  /** A task that is spawned or has a session out while admission is open owns a permit,
      and so does a guard counted in `inflight` at any time. */
  lemma {:induction false} OwnPermits(c: Config, s: State, n: nat)
    requires n <= |s.jobs|
    requires forall i | 0 <= i < |s.jobs| :: JobOk(c, s.gate.accepting, s.now, i in s.slots.line, s.jobs[i])
    ensures var t := Sum(Loads(s.jobs), n); t.counted <= t.permits && (s.gate.accepting ==> t.spawned + t.out <= t.permits)
  {
    if n == 0 {
    } else {
      OwnPermits(c, s, n - 1);
      assert JobOk(c, s.gate.accepting, s.now, n - 1 in s.slots.line, s.jobs[n - 1]);
    }
  }
}
