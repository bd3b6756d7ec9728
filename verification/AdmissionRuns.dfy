/**
 What holds over whole runs of the admission protocol, whatever the interleaving of
 requests, cancellations, deadlines, panics, closing and driver polls.
 */
module AdmissionRuns {
  import opened Wrappers
  import opened Admission
  import opened AdmissionSafety
  import opened AdmissionSteps

  /** Event k is enabled in state k and leads to state k + 1. */
  ghost predicate StepAt(c: Config, ss: seq<State>, es: seq<Event>, k: nat) {
    && k < |es| && k + 1 < |ss|
    && LineInRange(ss[k]) && Enabled(c, ss[k], es[k]) && ss[k + 1] == Next(c, ss[k], es[k])
  }

  /** es leads from ss[0] through the states of ss, one event at a time. */
  ghost predicate Steps(c: Config, ss: seq<State>, es: seq<Event>) {
    |ss| == |es| + 1 && forall k | 0 <= k < |es| :: StepAt(c, ss, es, k)
  }

  ghost predicate IsRun(c: Config, ss: seq<State>, es: seq<Event>) {
    Steps(c, ss, es) && ss[0] == Init(c)
  }

  /** Every state of every run satisfies the invariant. */
  lemma {:induction false} RunInv(c: Config, ss: seq<State>, es: seq<Event>, k: nat)
    requires IsRun(c, ss, es) && k < |ss|
    ensures Inv(c, ss[k]) && (k < |es| ==> StepAt(c, ss, es, k))
  {
    if k == 0 {
      InitInv(c);
    } else {
      RunInv(c, ss, es, k - 1);
      StepInv(c, ss[k - 1], es[k - 1]);
    }
  }

  // ---- Counting, stated with sets ----

  function Permits(s: State): set<nat> { set i | 0 <= i < |s.jobs| && !s.jobs[i].seat.NoPermit? }
  function Owners(s: State): set<nat> { set i | 0 <= i < |s.jobs| && s.jobs[i].seat.Held? }
  function Queue(s: State): set<nat> { set i | 0 <= i < |s.jobs| && s.jobs[i].queued }
  function Inflight(s: State): set<nat> { set i | 0 <= i < |s.jobs| && s.jobs[i].counted }
  function SessionsOut(s: State): set<nat> { set i | 0 <= i < |s.jobs| && Out(s.jobs[i].task) }

  function Below(x: set<nat>, n: nat): set<nat> { set i | i in x && i < n }

  lemma BelowNext(x: set<nat>, n: nat)
    ensures |Below(x, n + 1)| == |Below(x, n)| + One(n in x)
  {
    if n in x {
      assert Below(x, n + 1) == Below(x, n) + {n};
    } else {
      assert Below(x, n + 1) == Below(x, n);
    }
  }

  lemma {:induction false} SumIsCardinality(s: State, n: nat)
    requires n <= |s.jobs|
    ensures var t := Sum(Loads(s.jobs), n);
            t.permits == |Below(Permits(s), n)| && t.queued == |Below(Queue(s), n)|
            && t.counted == |Below(Inflight(s), n)| && t.out == |Below(SessionsOut(s), n)|
  {
    if n == 0 {
      assert Below(Permits(s), 0) == Below(Queue(s), 0) == Below(Inflight(s), 0) == Below(SessionsOut(s), 0) == {};
    } else {
      SumIsCardinality(s, n - 1);
      BelowNext(Permits(s), n - 1);
      BelowNext(Queue(s), n - 1);
      BelowNext(Inflight(s), n - 1);
      BelowNext(SessionsOut(s), n - 1);
    }
  }

  lemma SubsetSmaller(a: set<nat>, b: set<nat>)
    requires a <= b
    ensures |a| <= |b|
  {
    assert b == a + (b - a);
  }

  /**
   Permit conservation in every reachable state. Free permits and permits handed out add
   up to the slots; `waiting` is exactly the number of queued entries and stays within the
   capacity; `inflight` is exactly the number of live guards and never exceeds the permits
   they own; no session appears or vanishes except by a panic. All counters are >= 0.
   */
  lemma Conservation(c: Config, ss: seq<State>, es: seq<Event>, k: nat)
    requires IsRun(c, ss, es) && k < |ss|
    ensures var s := ss[k];
            && s.slots.free >= 0 && s.slots.free + |Permits(s)| == c.slots
            && s.gate.waiting == |Queue(s)| <= c.capacity
            && s.gate.inflight == |Inflight(s)| <= |Owners(s)|
            && s.sessions >= 0 && s.sessions + |SessionsOut(s)| == c.slots
  {
    RunInv(c, ss, es, k);
    var s := ss[k];
    var n := |s.jobs|;
    SumIsCardinality(s, n);
    assert Below(Permits(s), n) == Permits(s) && Below(Queue(s), n) == Queue(s);
    assert Below(Inflight(s), n) == Inflight(s) && Below(SessionsOut(s), n) == SessionsOut(s);
    forall i | i in Inflight(s) ensures i in Owners(s) {
      assert JobOk(c, s.gate.accepting, s.now, i in s.slots.line, s.jobs[i]);
    }
    SubsetSmaller(Inflight(s), Owners(s));
    SumAtLeast(Loads(s.jobs), 0, n);
  }

  /** A task that starts to work finds a session to pop, in every interleaving and even
      after panics have destroyed sessions: the `Unavailable` branch is never taken. */
  lemma SessionAlwaysFound(c: Config, ss: seq<State>, es: seq<Event>, k: nat)
    requires IsRun(c, ss, es) && k < |es| && es[k].Begin?
    ensures StepAt(c, ss, es, k)
    ensures ss[k].sessions > 0 && ss[k + 1].jobs[es[k].i].task.Working?
    ensures ss[k + 1].gate.accepting == ss[k].gate.accepting
  {
    RunInv(c, ss, es, k);
    PoolNotEmpty(c, ss[k], es[k].i);
  }

  /** No permit is left idle while a request waits for one. */
  lemma NoStrandedPermit(c: Config, ss: seq<State>, es: seq<Event>, k: nat)
    requires IsRun(c, ss, es) && k < |ss|
    ensures ss[k].slots.free == 0 || ss[k].slots.line == []
  {
    RunInv(c, ss, es, k);
  }

  // ---- What a job and the scheduler can become ----

  function Rank(t: Task): nat {
    match t
    case NoTask => 0
    case Spawned => 1
    case Working => 2
    case Finished(_) => 3
    case Panicking(_) => 3
    case Sent(_) => 4
    case Unwinding(_) => 4
    case Complete(_) => 5
    case Joined(_) => 6
  }

  predicate Left(w: Caller) {
    w.Leaving? || w.Done?
  }

  function Final(w: Caller): Outcome
    requires Left(w)
  {
    if w.Leaving? then w.outcome else w.final
  }

  predicate JobLater(j: Job, j': Job) {
    && Rank(j.task) <= Rank(j'.task)
    && (j'.caller.Fresh? ==> j == j')
    && (j.caller.Done? ==> j'.caller == j.caller)
    && (Left(j.caller) ==> Left(j'.caller) && Final(j'.caller) == Final(j.caller))
    && (Left(j.caller) && j.task.NoTask? ==> j'.task.NoTask?)
    && (j.started.Some? ==> j'.started == j.started)
    && (j.limit.Some? ==> j'.limit == j.limit)
    && (j.task.Joined? ==> j'.task == j.task)
  }

  /** Every task of s' was there in s. */
  predicate NoneSpawned(s: State, s': State) {
    forall i | 0 <= i < |s'.jobs| && !s'.jobs[i].task.NoTask? :: i < |s.jobs| && !s.jobs[i].task.NoTask?
  }

  ghost predicate Later(s: State, s': State) {
    && s.now <= s'.now && |s.jobs| <= |s'.jobs|
    && (!s.gate.accepting ==> !s'.gate.accepting && s'.gate.tasks <= s.gate.tasks)
    && (s.run.told ==> s'.run.told)
    && (!s.gate.accepting ==> NoneSpawned(s, s'))
    && forall i | 0 <= i < |s.jobs| :: JobLater(s.jobs[i], s'.jobs[i])
  }

  lemma PollLater(c: Config, s: State, e: Event)
    requires Inv(c, s) && e.Poll? && Enabled(c, s, e)
    ensures Later(s, Next(c, s, e))
  {
    var i := e.i;
    assert JobOk(c, s.gate.accepting, s.now, i in s.slots.line, s.jobs[i]);
    PollJob(c, s, i, e.t1, e.t2, e.t3, e.fired);
    PolledLater(c, s, i, e.t1, e.t2, e.t3, e.fired);
    var s' := PollAcquire(c, s, i, e.t1, e.t2, e.t3, e.fired);
    forall k | 0 <= k < |s.jobs| ensures JobLater(s.jobs[k], s'.jobs[k]) {
      if k != i { assert s'.jobs[k] == s.jobs[k]; }
    }
  }

  lemma PolledLater(c: Config, s: State, i: nat, t1: nat, t2: nat, t3: nat, fired: bool)
    requires i < |s.jobs| && (s.jobs[i].caller.Fresh? || s.jobs[i].caller.Parked?)
    requires s.jobs[i].started.None? && (s.jobs[i].limit.Some? ==> s.jobs[i].queued)
    ensures i < |PollAcquire(c, s, i, t1, t2, t3, fired).jobs|
    ensures JobLater(s.jobs[i], PollAcquire(c, s, i, t1, t2, t3, fired).jobs[i])
  {
  }

  lemma GrantLater(c: Config, s: State, e: Event)
    requires Inv(c, s) && e.Release? && Enabled(c, s, e)
    ensures Later(s, Next(c, s, e))
  {
  }

  /** One event. */
  lemma StepLater(c: Config, s: State, e: Event)
    requires Inv(c, s) && Enabled(c, s, e)
    ensures Later(s, Next(c, s, e))
  {
    if e.Poll? { PollLater(c, s, e); }
    else if e.Release? { GrantLater(c, s, e); }
    else if OfCaller(e) { CallerLater(c, s, e); }
    else if OfTask(e) { TaskLater(c, s, e); }
    else { DriverLater(c, s, e); }
  }

  /** Events of a blocking task. */
  predicate OfTask(e: Event) {
    e.Begin? || e.Finish? || e.Fail? || e.FailClose? || e.Uncount? || e.Send? || e.Conclude?
  }

  /** Events on the caller's side, as opposed to those of tasks and driver. */
  predicate OfCaller(e: Event) { e.Arrive? || e.Abandon? || e.DropEntry? || e.Spawn? || e.Settle? }

  lemma CallerLater(c: Config, s: State, e: Event)
    requires Inv(c, s) && Enabled(c, s, e) && OfCaller(e)
    ensures Later(s, Next(c, s, e))
  {
    var s' := Next(c, s, e);
    forall i | 0 <= i < |s.jobs| ensures JobLater(s.jobs[i], s'.jobs[i]) {
      assert JobOk(c, s.gate.accepting, s.now, i in s.slots.line, s.jobs[i]);
    }
  }

  lemma TaskLater(c: Config, s: State, e: Event)
    requires Inv(c, s) && Enabled(c, s, e) && OfTask(e)
    ensures Later(s, Next(c, s, e))
  {
    assert JobOk(c, s.gate.accepting, s.now, e.i in s.slots.line, s.jobs[e.i]);
    if e.Begin? { PoolNotEmpty(c, s, e.i); }
    var s' := Next(c, s, e);
    TaskChanges(c, s, e);
    forall k | 0 <= k < |s.jobs| ensures JobLater(s.jobs[k], s'.jobs[k]) {
      if k != e.i { assert s'.jobs[k] == s.jobs[k]; }
    }
  }

  /** A task's event moves its own job on, and no other. */
  lemma TaskChanges(c: Config, s: State, e: Event)
    requires LineInRange(s) && Enabled(c, s, e) && OfTask(e) && (e.Begin? ==> s.sessions > 0)
    requires !s.jobs[e.i].caller.Fresh?
    ensures OnlyJob(s, Next(c, s, e), e.i) && JobLater(s.jobs[e.i], Next(c, s, e).jobs[e.i])
  {
  }

  /** Events of closing and of the driver. */
  lemma DriverLater(c: Config, s: State, e: Event)
    requires Inv(c, s) && Enabled(c, s, e) && !OfCaller(e) && !OfTask(e) && !e.Poll? && !e.Release?
    ensures Later(s, Next(c, s, e))
  {
  }

  /** Any number of events. */
  lemma {:induction false} RunLater(c: Config, ss: seq<State>, es: seq<Event>, k: nat, m: nat)
    requires IsRun(c, ss, es) && k <= m < |ss|
    ensures Later(ss[k], ss[m])
    decreases m - k
  {
    if k == m {
    } else {
      RunLater(c, ss, es, k, m - 1);
      RunInv(c, ss, es, m - 1);
      StepLater(c, ss[m - 1], es[m - 1]);
      LaterJoins(ss[k], ss[m - 1], ss[m]);
    }
  }

  lemma LaterJoins(a: State, b: State, d: State)
    requires Later(a, b) && Later(b, d)
    ensures Later(a, d)
  {
    forall i | 0 <= i < |a.jobs| ensures JobLater(a.jobs[i], d.jobs[i]) {
      assert JobLater(a.jobs[i], b.jobs[i]) && JobLater(b.jobs[i], d.jobs[i]);
      JobLaterJoins(a.jobs[i], b.jobs[i], d.jobs[i]);
    }
  }

  lemma JobLaterJoins(a: Job, b: Job, d: Job)
    requires JobLater(a, b) && JobLater(b, d)
    ensures JobLater(a, d)
  {
  }

  // ---- One outcome per request ----

  /** Work is started at most once for a request. */
  lemma WorkedAtMostOnce(c: Config, ss: seq<State>, es: seq<Event>, i: nat, k: nat, m: nat)
    requires IsRun(c, ss, es) && k < |es| && m < |es|
    requires es[k] == Begin(i) && es[m] == Begin(i)
    ensures k == m
  {
    if k < m { BegunOnce(c, ss, es, i, k, m); }
    if m < k { BegunOnce(c, ss, es, i, m, k); }
  }

  lemma BegunOnce(c: Config, ss: seq<State>, es: seq<Event>, i: nat, k: nat, m: nat)
    requires IsRun(c, ss, es) && k < m < |es| && es[k] == Begin(i)
    ensures es[m] != Begin(i)
  {
    RunInv(c, ss, es, k);
    RunInv(c, ss, es, m);
    PoolNotEmpty(c, ss[k], i);
    RunLater(c, ss, es, k + 1, m);
    assert JobLater(ss[k + 1].jobs[i], ss[m].jobs[i]);
  }

  /** The outcome of a request that ended is never replaced, however late its task ends. */
  lemma OutcomeIsFinal(c: Config, ss: seq<State>, es: seq<Event>, i: nat, k: nat, m: nat)
    requires IsRun(c, ss, es) && k <= m < |ss| && i < |ss[k].jobs| && ss[k].jobs[i].caller.Done?
    ensures i < |ss[m].jobs| && ss[m].jobs[i].caller == ss[k].jobs[i].caller
  {
    RunLater(c, ss, es, k, m);
  }

  /** A request that was turned away, that timed out in the queue or that was cancelled
      there is never worked on, before or after. */
  lemma RefusedNeverWorks(c: Config, ss: seq<State>, es: seq<Event>, i: nat, k: nat, m: nat)
    requires IsRun(c, ss, es) && k < |ss| && m < |es| && i < |ss[k].jobs| && Left(ss[k].jobs[i].caller)
    requires (Final(ss[k].jobs[i].caller).Refused? && EarlyFault(Final(ss[k].jobs[i].caller).fault))
             || ss[k].jobs[i].caller == Leaving(Cancelled)
    ensures es[m] != Begin(i)
  {
    RunInv(c, ss, es, k);
    RunInv(c, ss, es, m);
    var s := ss[k];
    assert JobOk(c, s.gate.accepting, s.now, i in s.slots.line, s.jobs[i]);
    if m < k {
      RunLater(c, ss, es, m, k);
    } else {
      RunLater(c, ss, es, k, m);
      assert JobLater(ss[k].jobs[i], ss[m].jobs[i]);
    }
  }

  /** The clock: a queued request starts strictly before its queue deadline; it is served
      only strictly before its execution deadline, and a deadline that was reached gives
      `InferenceTimeout` and nothing else. */
  lemma OnTime(c: Config, ss: seq<State>, es: seq<Event>, i: nat, k: nat)
    requires IsRun(c, ss, es) && k < |ss| && i < |ss[k].jobs|
    ensures var j := ss[k].jobs[i];
            && (j.started.Some? && j.limit.Some? ==> j.started.value < j.limit.value)
            && (!j.task.NoTask? ==> j.started.Some?)
            && (j.caller.Done? && j.caller.final.Served? ==>
                  j.started.Some? && j.started.value <= j.caller.at < j.started.value + c.inferenceTimeout
                  && Ready(j.task) && ResultOf(j.task) == Served)
            && (j.caller.Done? && j.caller.final.Refused? && !EarlyFault(j.caller.final.fault) ==>
                  j.started.Some?
                  && (j.caller.final.fault.InferenceTimeout? <==> j.caller.at >= j.started.value + c.inferenceTimeout))
  {
    RunInv(c, ss, es, k);
    var s := ss[k];
    assert JobOk(c, s.gate.accepting, s.now, i in s.slots.line, s.jobs[i]);
  }

  // ---- First come, first served ----

  predicate Before(line: seq<nat>, x: nat, y: nat) {
    exists p, q | 0 <= p < q < |line| :: line[p] == x && line[q] == y
  }

  /** x is registered, and y has neither a permit nor a task and is not registered ahead of x. */
  predicate Behind(s: State, x: nat, y: nat) {
    && x in s.slots.line && x != y
    && (y in s.slots.line ==> Before(s.slots.line, x, y))
    && (y < |s.jobs| ==>
          s.jobs[y].seat.NoPermit? && s.jobs[y].task.NoTask?
          && (y in s.slots.line || s.jobs[y].caller.Fresh? || Left(s.jobs[y].caller)))
  }

  lemma WithoutKeepsOrder(s: State, i: nat, x: nat, y: nat)
    requires LineInv(s) && i in s.slots.line && i != x && i != y && Before(s.slots.line, x, y)
    ensures Before(Without(s.slots.line, i), x, y)
  {
    var line := s.slots.line;
    var p, q :| 0 <= p < q < |line| && line[p] == x && line[q] == y;
    CutKeepsOrder(line, Position(line, i), p, q);
  }

  lemma CutKeepsOrder(line: seq<nat>, k: nat, p: nat, q: nat)
    requires p < q < |line| && k < |line| && p != k && q != k
    ensures Before(line[..k] + line[k + 1..], line[p], line[q])
  {
    var r := line[..k] + line[k + 1..];
    var p', q' := if p < k then p else p - 1, if q < k then q else q - 1;
    assert r[p'] == line[p] && r[q'] == line[q];
  }

  lemma TailKeepsOrder(line: seq<nat>, x: nat, y: nat)
    requires line != [] && line[0] != x && Before(line, x, y)
    requires forall k, l | 0 <= k < l < |line| :: line[k] != line[l]
    ensures Before(line[1..], x, y) && line[0] != y
  {
    var p, q :| 0 <= p < q < |line| && line[p] == x && line[q] == y;
    assert line[1..][p - 1] == x && line[1..][q - 1] == y;
  }

  lemma AppendKeepsOrder(line: seq<nat>, i: nat, x: nat, y: nat)
    requires x in line && (y in line ==> Before(line, x, y))
    ensures y in line + [i] ==> Before(line + [i], x, y)
  {
    if y in line {
      var p, q :| 0 <= p < q < |line| && line[p] == x && line[q] == y;
      assert (line + [i])[p] == x && (line + [i])[q] == y;
    } else if y == i {
      var p :| 0 <= p < |line| && line[p] == x;
      assert (line + [i])[p] == x && (line + [i])[|line|] == y;
    }
  }

  lemma PollBehind(c: Config, s: State, e: Event, x: nat, y: nat)
    requires Inv(c, s) && e.Poll? && Enabled(c, s, e) && Behind(s, x, y)
    requires x in Next(c, s, e).slots.line
    ensures Behind(Next(c, s, e), x, y)
  {
    assert JobOk(c, s.gate.accepting, s.now, e.i in s.slots.line, s.jobs[e.i]);
    assert s.gate.accepting && s.slots.free == 0;
    PollJob(c, s, e.i, e.t1, e.t2, e.t3, e.fired);
    AppendKeepsOrder(s.slots.line, e.i, x, y);
  }

  lemma ReleaseBehind(c: Config, s: State, e: Event, x: nat, y: nat)
    requires Inv(c, s) && e.Release? && Enabled(c, s, e) && Behind(s, x, y)
    requires x in Next(c, s, e).slots.line
    ensures Behind(Next(c, s, e), x, y)
  {
    var line := s.slots.line;
    if e.i in line {
      FrameLine(s, e.i);
      if y in line && y != e.i { WithoutKeepsOrder(s, e.i, x, y); }
    } else {
      Tail(line);
      if y in line { TailKeepsOrder(line, x, y); }
    }
  }

  /** As long as x stays registered, y stays behind it. */
  lemma StepBehind(c: Config, s: State, e: Event, x: nat, y: nat)
    requires Inv(c, s) && Enabled(c, s, e) && Behind(s, x, y)
    requires x in Next(c, s, e).slots.line
    ensures Behind(Next(c, s, e), x, y)
  {
    if e.Poll? { PollBehind(c, s, e, x, y); }
    else if e.Release? { ReleaseBehind(c, s, e, x, y); }
    else if y < |s.jobs| {
      assert JobOk(c, s.gate.accepting, s.now, y in s.slots.line, s.jobs[y]);
    }
  }

  /** x has been registered and no longer is. */
  predicate Gone(s: State, x: nat) {
    x < |s.jobs| && x !in s.slots.line && !s.jobs[x].caller.Fresh?
  }

  /** A request that left the line does not come back to it. */
  lemma StepGone(c: Config, s: State, e: Event, x: nat)
    requires Inv(c, s) && Enabled(c, s, e) && Gone(s, x)
    ensures Gone(Next(c, s, e), x)
  {
    if e.Release? { ReleaseGone(c, s, e, x); }
    else if e.Poll? { PollGone(c, s, e, x); }
    else { OtherGone(c, s, e, x); }
  }

  lemma PollGone(c: Config, s: State, e: Event, x: nat)
    requires Inv(c, s) && Enabled(c, s, e) && e.Poll? && Gone(s, x)
    ensures Gone(Next(c, s, e), x)
  {
    assert JobOk(c, s.gate.accepting, s.now, x in s.slots.line, s.jobs[x]);
    assert JobOk(c, s.gate.accepting, s.now, e.i in s.slots.line, s.jobs[e.i]);
    PollJob(c, s, e.i, e.t1, e.t2, e.t3, e.fired);
  }

  lemma OtherGone(c: Config, s: State, e: Event, x: nat)
    requires Inv(c, s) && Enabled(c, s, e) && !e.Release? && !e.Poll? && Gone(s, x)
    ensures Gone(Next(c, s, e), x)
  {
  }

  lemma ReleaseGone(c: Config, s: State, e: Event, x: nat)
    requires Inv(c, s) && Enabled(c, s, e) && e.Release? && Gone(s, x)
    ensures Gone(Next(c, s, e), x)
  {
    assert JobOk(c, s.gate.accepting, s.now, x in s.slots.line, s.jobs[x]);
    if e.i in s.slots.line { FrameLine(s, e.i); }
  }

  predicate BehindUntilGone(s: State, x: nat, y: nat) {
    Behind(s, x, y) || Gone(s, x)
  }

  lemma StepBehindUntilGone(c: Config, s: State, e: Event, x: nat, y: nat)
    requires Inv(c, s) && Enabled(c, s, e) && BehindUntilGone(s, x, y)
    ensures BehindUntilGone(Next(c, s, e), x, y)
  {
    if Gone(s, x) { StepGone(c, s, e, x); }
    else if x in Next(c, s, e).slots.line { StepBehind(c, s, e, x, y); }
    else {
      assert JobOk(c, s.gate.accepting, s.now, true, s.jobs[x]);
      StepLater(c, s, e);
    }
  }

  /**
   First come, first served, without barging. Once x is registered and y is not ahead of
   it, y gets neither a permit nor a task for as long as x is still registered: whatever
   requests arrive, give up, time out, are turned away from the full queue while briefly
   registered, or hand back a permit they were granted.
   */
  lemma {:induction false} NoBarging(c: Config, ss: seq<State>, es: seq<Event>, x: nat, y: nat, k: nat, m: nat)
    requires IsRun(c, ss, es) && k <= m < |ss| && Behind(ss[k], x, y)
    ensures x in ss[m].slots.line ==> Behind(ss[m], x, y)
    ensures BehindUntilGone(ss[m], x, y)
    decreases m - k
  {
    if k == m {
    } else {
      NoBarging(c, ss, es, x, y, k, m - 1);
      RunInv(c, ss, es, m - 1);
      StepBehindUntilGone(c, ss[m - 1], es[m - 1], x, y);
    }
  }

  // ---- Closing and draining ----

  /** After admission has closed no task is spawned, and it never opens again. */
  lemma ClosedForGood(c: Config, ss: seq<State>, es: seq<Event>, k: nat, m: nat)
    requires IsRun(c, ss, es) && k <= m < |ss| && !ss[k].gate.accepting
    ensures !ss[m].gate.accepting && ss[m].gate.tasks <= ss[k].gate.tasks
    ensures forall i | 0 <= i < |ss[m].jobs| && Live(ss[m].jobs[i].task) :: i < |ss[k].jobs| && Live(ss[k].jobs[i].task)
  {
    RunLater(c, ss, es, k, m);
    RunInv(c, ss, es, k);
    RunInv(c, ss, es, m);
    assert forall i | 0 <= i < |ss[m].jobs| && Live(ss[m].jobs[i].task) :: i in ss[k].gate.tasks;
  }

  /** When `run` has returned, every task that was ever spawned has been joined, and none
      is spawned later. */
  lemma RunReturnsDrained(c: Config, ss: seq<State>, es: seq<Event>, k: nat, m: nat)
    requires IsRun(c, ss, es) && k <= m < |ss| && ss[k].run.phase.Returned?
    ensures !ss[m].gate.accepting && ss[m].gate.tasks == {}
    ensures forall i | 0 <= i < |ss[m].jobs| :: ss[m].jobs[i].task.NoTask? || ss[m].jobs[i].task.Joined?
  {
    RunInv(c, ss, es, k);
    RunInv(c, ss, es, m);
    RunLater(c, ss, es, k, m);
  }

  /** Some `run` that has returned an error at n found the panic of task i joined. */
  ghost predicate ReturnedWith(ss: seq<State>, n: nat, i: nat) {
    ReturnedError(ss, n) && IsPanic(ss[n], i)
  }

  /** What a drained scheduler has joined, and no more, it has joined for good. */
  lemma DrainedJoinsNothing(c: Config, ss: seq<State>, es: seq<Event>, n: nat, k: nat, i: nat)
    requires IsRun(c, ss, es) && n <= k < |ss| && ss[n].run.phase.Returned? && IsPanic(ss[k], i)
    ensures IsPanic(ss[n], i)
  {
    RunLater(c, ss, es, n, k);
    RunReturnsDrained(c, ss, es, n, n);
    assert JobLater(ss[n].jobs[i], ss[k].jobs[i]);
  }

  ghost predicate ReturnedError(ss: seq<State>, n: nat) {
    n < |ss| && ss[n].run.phase.Returned? && ss[n].run.phase.error.Some?
  }

  /** `told` is what it says: some `run` has returned an error. */
  lemma {:induction false} ToldWasReturned(c: Config, ss: seq<State>, es: seq<Event>, k: nat)
    requires IsRun(c, ss, es) && k < |ss| && ss[k].run.told
    ensures exists n: nat | n <= k :: ReturnedError(ss, n)
  {
    if k == 0 {
    } else if ss[k - 1].run.told {
      ToldWasReturned(c, ss, es, k - 1);
    } else {
      ToldNow(c, ss, es, k);
    }
  }

  lemma ToldNow(c: Config, ss: seq<State>, es: seq<Event>, k: nat)
    requires IsRun(c, ss, es) && 0 < k < |ss| && ss[k].run.told && !ss[k - 1].run.told
    ensures ReturnedError(ss, k)
  {
    assert StepAt(c, ss, es, k - 1);
    TellingReturns(c, ss[k - 1], es[k - 1]);
  }

  lemma TellingReturns(c: Config, s: State, e: Event)
    requires LineInRange(s) && Enabled(c, s, e) && !s.run.told && Next(c, s, e).run.told
    ensures Next(c, s, e).run.phase.Returned? && Next(c, s, e).run.phase.error.Some?
  {
  }

  /**
   No panic is lost: once joined it is held as the stored error or beside it, about to be
   stored, or it had been joined when a `run` returned an error.
   */
  lemma PanicIsReported(c: Config, ss: seq<State>, es: seq<Event>, k: nat, i: nat)
    requires IsRun(c, ss, es) && k < |ss| && IsPanic(ss[k], i)
    ensures ss[k].run.failure.Some? || ss[k].run.phase.Failing? || exists n | 0 <= n <= k :: ReturnedWith(ss, n, i)
  {
    RunInv(c, ss, es, k);
    assert PanicExit(ss[k].jobs[i].task);
    if ss[k].run.failure.None? && !ss[k].run.phase.Failing? {
      ToldWasReturned(c, ss, es, k);
      var n: nat :| n <= k && ReturnedError(ss, n);
      DrainedJoinsNothing(c, ss, es, n, k, i);
      assert ReturnedWith(ss, n, i);
    }
  }

  /** The panic of task i is on its way to the caller of `run`: joined, or stored. */
  predicate Reporting(s: State, i: nat) {
    (s.run.phase == Failing(i) && s.run.failure.None?) || s.run.failure == Some(i)
  }

  lemma ReportingStep(c: Config, s: State, e: Event, i: nat)
    requires Inv(c, s) && Enabled(c, s, e) && Reporting(s, i)
    ensures Reporting(Next(c, s, e), i) || Next(c, s, e).run.phase == Returned(Some(i))
  {
    if e.Poll? {
      assert JobOk(c, s.gate.accepting, s.now, e.i in s.slots.line, s.jobs[e.i]);
      PollJob(c, s, e.i, e.t1, e.t2, e.t3, e.fired);
    }
  }

  /** A `run` returned the panic of task i. */
  ghost predicate ReturnedAt(ss: seq<State>, n: nat, i: nat) {
    n < |ss| && ss[n].run.phase == Returned(Some(i))
  }

  lemma ReportingNext(c: Config, ss: seq<State>, es: seq<Event>, i: nat, m: nat)
    requires IsRun(c, ss, es) && 0 < m < |ss| && Reporting(ss[m - 1], i)
    ensures Reporting(ss[m], i) || ReturnedAt(ss, m, i)
  {
    RunInv(c, ss, es, m - 1);
    ReportingStep(c, ss[m - 1], es[m - 1], i);
  }

  lemma FirstPanicJoins(c: Config, s: State, i: nat)
    requires Inv(c, s) && Enabled(c, s, RunPoll(Some(i))) && IsPanic(PollDriver(s, Some(i)), i)
    requires forall j | 0 <= j < |s.jobs| :: !IsPanic(s, j)
    ensures Reporting(PollDriver(s, Some(i)), i)
  {
  }

  lemma FirstPanicNow(c: Config, ss: seq<State>, es: seq<Event>, i: nat, k: nat)
    requires IsRun(c, ss, es) && k < |es| && es[k] == RunPoll(Some(i)) && IsPanic(ss[k + 1], i)
    requires forall j | 0 <= j < |ss[k].jobs| :: !IsPanic(ss[k], j)
    ensures Reporting(ss[k + 1], i)
  {
    RunInv(c, ss, es, k);
    FirstPanicJoins(c, ss[k], i);
  }

  /** The first panic that is joined is the error: it is reported, and no other, until a `run` returns it. */
  lemma {:induction false} FirstPanicIsTheError(c: Config, ss: seq<State>, es: seq<Event>, i: nat, k: nat, m: nat)
    requires IsRun(c, ss, es) && k < m < |ss| && es[k] == RunPoll(Some(i)) && IsPanic(ss[k + 1], i)
    requires forall j | 0 <= j < |ss[k].jobs| :: !IsPanic(ss[k], j)
    ensures Reporting(ss[m], i) || exists n: nat | k < n <= m :: ReturnedAt(ss, n, i)
    decreases m
  {
    if m == k + 1 {
      FirstPanicNow(c, ss, es, i, k);
    } else {
      FirstPanicIsTheError(c, ss, es, i, k, m - 1);
      if Reporting(ss[m - 1], i) { ReportingNext(c, ss, es, i, m); }
    }
  }

  /** The first error survives later panics and `run` futures that are dropped and started
      again: it is kept until a `run` returns exactly that error. */
  lemma {:induction false} FirstErrorSurvives(c: Config, ss: seq<State>, es: seq<Event>, k: nat, m: nat)
    requires IsRun(c, ss, es) && k <= m < |ss| && ss[k].run.failure.Some?
    ensures ss[m].run.failure == ss[k].run.failure
            || exists n | k < n <= m :: ss[n].run.phase == Returned(ss[k].run.failure)
    decreases m - k
  {
    if k == m {
    } else {
      FirstErrorSurvives(c, ss, es, k, m - 1);
      assert StepAt(c, ss, es, m - 1);
    }
  }

  /**
   No lost wakeup. If the driver sleeps although a finished task can be joined, or although
   it should return because admission is closed and nothing is left to join, then a wakeup
   of its current future is pending.
   */
  lemma NoLostWakeup(c: Config, ss: seq<State>, es: seq<Event>, k: nat)
    requires IsRun(c, ss, es) && k < |ss| && ss[k].run.phase.Asleep?
    requires (exists i | i in ss[k].gate.tasks :: Ended(ss[k], i)) || (!ss[k].gate.accepting && ss[k].gate.tasks == {})
    ensures ss[k].run.wake
  {
    RunInv(c, ss, es, k);
  }

  // ---- Progress ----

  /** The next event of a task that has not ended. */
  function NextOf(s: State, i: nat): Event
    requires i < |s.jobs|
  {
    var j := s.jobs[i];
    match j.task
    case Spawned => Begin(i)
    case Working => Finish(i, true)
    case Panicking(_) => FailClose(i)
    case Finished(_) => if j.counted then Uncount(i) else if !j.seat.NoPermit? then Release(i) else Send(i)
    case Unwinding(_) => if j.counted then Uncount(i) else if !j.seat.NoPermit? then Release(i) else Conclude(i)
    case _ => Conclude(i)
  }

  function StepsLeft(j: Job): int {
    2 * (6 - Rank(j.task)) + One(j.counted) + One(!j.seat.NoPermit?)
  }

  /** No task that was spawned is ever stuck, closed or not: its next event is enabled, and
      takes it closer to the point where the driver can join it. */
  lemma NeverStuck(c: Config, ss: seq<State>, es: seq<Event>, k: nat, i: nat)
    requires IsRun(c, ss, es) && k < |ss| && i < |ss[k].jobs|
    requires Live(ss[k].jobs[i].task) && !ss[k].jobs[i].task.Complete?
    ensures Enabled(c, ss[k], NextOf(ss[k], i)) && LineInRange(ss[k])
    ensures var s' := Next(c, ss[k], NextOf(ss[k], i));
            |s'.jobs| == |ss[k].jobs| && 0 <= StepsLeft(s'.jobs[i]) < StepsLeft(ss[k].jobs[i])
  {
    RunInv(c, ss, es, k);
    var s := ss[k];
    assert JobOk(c, s.gate.accepting, s.now, i in s.slots.line, s.jobs[i]);
    if s.jobs[i].task.Spawned? { PoolNotEmpty(c, s, i); }
    if NextOf(s, i).Release? && s.slots.line != [] {
      assert JobOk(c, s.gate.accepting, s.now, true, s.jobs[s.slots.line[0]]);
    }
  }
}
