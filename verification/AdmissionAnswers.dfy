/**
 What a caller is answered, said of the events of a run alone: how its task ended, and which
 readings of the clock set its deadlines.
 */
module AdmissionAnswers {
  import opened Wrappers
  import opened Admission
  import opened AdmissionSafety
  import opened AdmissionSteps
  import opened AdmissionRuns

  // ---- How tasks end ----

  /** The work has not ended, has returned a result or an error, or has panicked. */
  datatype Fate = Open | Returned(ok: bool) | Panicked

  function FateOf(t: Task): Fate {
    match t
    case Finished(ok) => Fate.Returned(ok)
    case Sent(ok) => Fate.Returned(ok)
    case Panicking(_) => Fate.Panicked
    case Unwinding(_) => Fate.Panicked
    case Complete(x) => if x.Normal? then Fate.Returned(x.ok) else Fate.Panicked
    case Joined(x) => if x.Normal? then Fate.Returned(x.ok) else Fate.Panicked
    case _ => Open
  }

  function FateAt(s: State, i: nat): Fate { if i < |s.jobs| then FateOf(s.jobs[i].task) else Open }

  /** Only the end of the work itself decides how the task ended. */
  lemma StepFate(c: Config, s: State, e: Event, i: nat)
    requires Inv(c, s) && Enabled(c, s, e)
    ensures FateAt(Next(c, s, e), i)
         == if e == Finish(i, true) then Fate.Returned(true)
            else if e == Finish(i, false) then Fate.Returned(false)
            else if e == Fail(i) then Fate.Panicked
            else FateAt(s, i)
  {
    if e.Poll? {
      assert JobOk(c, s.gate.accepting, s.now, e.i in s.slots.line, s.jobs[e.i]);
      PollJob(c, s, e.i, e.t1, e.t2, e.t3, e.fired);
    } else if e.Release? {
      ReleaseFate(c, s, e, i);
    } else if OfTask(e) {
      TaskFate(c, s, e, i);
    } else {
      OtherFate(c, s, e, i);
    }
  }

  lemma TaskFate(c: Config, s: State, e: Event, i: nat)
    requires Inv(c, s) && Enabled(c, s, e) && OfTask(e)
    ensures FateAt(Next(c, s, e), i)
         == if e == Finish(i, true) then Fate.Returned(true)
            else if e == Finish(i, false) then Fate.Returned(false)
            else if e == Fail(i) then Fate.Panicked
            else FateAt(s, i)
  {
    assert JobOk(c, s.gate.accepting, s.now, e.i in s.slots.line, s.jobs[e.i]);
    if e.Begin? { PoolNotEmpty(c, s, e.i); }
    TaskChanges(c, s, e);
    OwnFate(c, s, e);
    if i < |s.jobs| && i != e.i { assert Next(c, s, e).jobs[i] == s.jobs[i]; }
  }

  lemma OwnFate(c: Config, s: State, e: Event)
    requires LineInRange(s) && Enabled(c, s, e) && OfTask(e) && (e.Begin? ==> s.sessions > 0)
    requires e.i < |Next(c, s, e).jobs|
    ensures FateOf(Next(c, s, e).jobs[e.i].task)
         == if e.Finish? then Fate.Returned(e.ok) else if e.Fail? then Fate.Panicked else FateOf(s.jobs[e.i].task)
  {
  }

  lemma OtherFate(c: Config, s: State, e: Event, i: nat)
    requires Inv(c, s) && Enabled(c, s, e) && !OfTask(e) && !e.Poll? && !e.Release?
    ensures FateAt(Next(c, s, e), i) == FateAt(s, i)
  {
    if e.Spawn? { assert JobOk(c, s.gate.accepting, s.now, e.i in s.slots.line, s.jobs[e.i]); }
  }

  lemma ReleaseFate(c: Config, s: State, e: Event, i: nat)
    requires Inv(c, s) && Enabled(c, s, e) && e.Release?
    ensures FateAt(Next(c, s, e), i) == FateAt(s, i)
  {
    assert JobOk(c, s.gate.accepting, s.now, e.i in s.slots.line, s.jobs[e.i]);
  }

  /** Event e is among the first k. */
  ghost predicate Happened(es: seq<Event>, k: nat, e: Event) { exists n | 0 <= n < k && n < |es| :: es[n] == e }

  lemma HappenedNext(es: seq<Event>, k: nat, e: Event)
    requires 0 < k <= |es|
    ensures Happened(es, k, e) <==> es[k - 1] == e || Happened(es, k - 1, e)
  {
  }

  /** The work of request i, seen in its task, ended as the events say; and it ended at most once. */
  ghost predicate EndedAs(es: seq<Event>, k: nat, i: nat, f: Fate) {
    && (f == Fate.Returned(true) <==> Happened(es, k, Finish(i, true)))
    && (f == Fate.Returned(false) <==> Happened(es, k, Finish(i, false)))
    && (f == Fate.Panicked <==> Happened(es, k, Fail(i)))
  }

  lemma StepEndedAs(c: Config, ss: seq<State>, es: seq<Event>, i: nat, k: nat)
    requires IsRun(c, ss, es) && 0 < k < |ss| && EndedAs(es, k - 1, i, FateAt(ss[k - 1], i))
    ensures EndedAs(es, k, i, FateAt(ss[k], i))
  {
    RunInv(c, ss, es, k - 1);
    StepFate(c, ss[k - 1], es[k - 1], i);
    EndsOnce(c, ss[k - 1], es[k - 1], i);
    HappenedNext(es, k, Finish(i, true));
    HappenedNext(es, k, Finish(i, false));
    HappenedNext(es, k, Fail(i));
  }

  /** Work that has ended does not end again. */
  lemma EndsOnce(c: Config, s: State, e: Event, i: nat)
    requires Inv(c, s) && Enabled(c, s, e)
    ensures e == Finish(i, true) || e == Finish(i, false) || e == Fail(i) ==> FateAt(s, i) == Open
  {
  }

  /** In every reachable state, how a task ended is what its events were. */
  lemma {:induction false} FateIsHistory(c: Config, ss: seq<State>, es: seq<Event>, i: nat, k: nat)
    requires IsRun(c, ss, es) && k < |ss|
    ensures EndedAs(es, k, i, FateAt(ss[k], i))
  {
    if k == 0 {
    } else {
      FateIsHistory(c, ss, es, i, k - 1);
      StepEndedAs(c, ss, es, i, k);
    }
  }

  /** What the caller is told at t, of a task whose work ended in the way f. */
  ghost predicate Told(o: Outcome, f: Fate, late: bool) {
    && (late <==> o == Refused(InferenceTimeout))
    && (!late ==>
          && (f == Fate.Returned(true) <==> o == Served)
          && (f == Fate.Returned(false) <==> o == Refused(Inference))
          && (f == Fate.Panicked <==> o == Refused(TaskFailed))
          && f != Open)
  }

  lemma SettleTells(c: Config, s: State, i: nat, t: nat)
    requires Inv(c, s) && Enabled(c, s, Settle(i, t))
    ensures var s' := Next(c, s, Settle(i, t));
            && |s'.jobs| == |s.jobs| && s'.jobs[i].caller.Done? && s'.jobs[i].caller.at == t
            && s.jobs[i].started.Some?
            && Told(s'.jobs[i].caller.final, FateOf(s.jobs[i].task), t >= s.jobs[i].started.value + c.inferenceTimeout)
  {
  }

  /**
   The answer is what the work was. A caller that is answered before its execution deadline is
   served if and only if its work returned a result, told of an inference failure if and only if
   the work returned an error, and told that the task failed if and only if it panicked; from
   the deadline on it is told of the timeout, and of nothing else.
   */
  lemma AnswerIsTheWork(c: Config, ss: seq<State>, es: seq<Event>, i: nat, t: nat, k: nat)
    requires IsRun(c, ss, es) && k < |es| && es[k] == Settle(i, t)
    ensures i < |ss[k].jobs| && i < |ss[k + 1].jobs| && ss[k].jobs[i].started.Some?
    ensures ss[k + 1].jobs[i].caller.Done? && ss[k + 1].jobs[i].caller.at == t
    ensures var o := ss[k + 1].jobs[i].caller.final;
            if t >= ss[k].jobs[i].started.value + c.inferenceTimeout then o == Refused(InferenceTimeout)
            else
              && (o == Served <==> Happened(es, k, Finish(i, true)))
              && (o == Refused(Inference) <==> Happened(es, k, Finish(i, false)))
              && (o == Refused(TaskFailed) <==> Happened(es, k, Fail(i)))
              && (o == Served || o == Refused(Inference) || o == Refused(TaskFailed))
  {
    RunInv(c, ss, es, k);
    FateIsHistory(c, ss, es, i, k);
    SettleTells(c, ss[k], i, t);
  }

  /** A task that has been joined was a panic to the driver exactly if its work panicked. */
  lemma PanicIsFailure(c: Config, ss: seq<State>, es: seq<Event>, i: nat, k: nat)
    requires IsRun(c, ss, es) && k < |ss| && i < |ss[k].jobs| && ss[k].jobs[i].task.Joined?
    ensures IsPanic(ss[k], i) <==> Happened(es, k, Fail(i))
  {
    FateIsHistory(c, ss, es, i, k);
  }

  // ---- The instants of the deadlines ----

  /** At event n a poll of request i set its queue deadline to `limit`: it had none, and has a place in the queue now. */
  ghost predicate QueuedAt(c: Config, ss: seq<State>, es: seq<Event>, i: nat, n: nat, limit: nat) {
    && n < |es| && n + 1 < |ss| && i < |ss[n].jobs| && i < |ss[n + 1].jobs|
    && es[n].Poll? && es[n].i == i && limit == es[n].t2 + c.queueTimeout
    && ss[n].jobs[i].limit.None? && !ss[n].jobs[i].queued && ss[n + 1].jobs[i].queued
  }

  /** At event n a poll admitted request i, at the instant `started` that it read. */
  ghost predicate AdmittedAt(ss: seq<State>, es: seq<Event>, i: nat, n: nat, started: nat) {
    && n < |es| && n + 1 < |ss| && i < |ss[n + 1].jobs|
    && es[n].Poll? && es[n].i == i && started == es[n].t2 && ss[n + 1].jobs[i].caller.Admitted?
  }

  /** An event leaves both instants alone, unless it is the poll that sets them. */
  lemma StepInstants(c: Config, s: State, e: Event, i: nat)
    requires Inv(c, s) && Enabled(c, s, e) && i < |Next(c, s, e).jobs|
    ensures var j' := Next(c, s, e).jobs[i];
            if i >= |s.jobs| then j'.limit.None? && j'.started.None?
            else
              var j := s.jobs[i];
              && (j'.limit == j.limit
                  || (j.limit.None? && !j.queued && j'.queued && e.Poll? && e.i == i && j'.limit == Some(e.t2 + c.queueTimeout)))
              && (j'.started == j.started
                  || (j'.caller.Admitted? && e.Poll? && e.i == i && j'.started == Some(e.t2)))
  {
    if e.Poll? {
      assert JobOk(c, s.gate.accepting, s.now, e.i in s.slots.line, s.jobs[e.i]);
      PollJob(c, s, e.i, e.t1, e.t2, e.t3, e.fired);
      PollInstants(c, s, e);
    } else {
      OtherInstants(c, s, e, i);
    }
  }

  lemma OtherInstants(c: Config, s: State, e: Event, i: nat)
    requires Inv(c, s) && Enabled(c, s, e) && !e.Poll? && i < |Next(c, s, e).jobs|
    ensures var j' := Next(c, s, e).jobs[i];
            if i >= |s.jobs| then j'.limit.None? && j'.started.None?
            else j'.limit == s.jobs[i].limit && j'.started == s.jobs[i].started
  {
    if OfTask(e) { TaskInstants(c, s, e, i); }
    else if e.Release? { ReleaseInstants(c, s, e, i); }
    else if OfCaller(e) { CallerInstants(c, s, e, i); }
  }

  lemma CallerInstants(c: Config, s: State, e: Event, i: nat)
    requires Inv(c, s) && Enabled(c, s, e) && OfCaller(e) && i < |Next(c, s, e).jobs|
    ensures var j' := Next(c, s, e).jobs[i];
            if i >= |s.jobs| then j'.limit.None? && j'.started.None?
            else j'.limit == s.jobs[i].limit && j'.started == s.jobs[i].started
  {
  }

  lemma TaskInstants(c: Config, s: State, e: Event, i: nat)
    requires Inv(c, s) && Enabled(c, s, e) && OfTask(e) && i < |Next(c, s, e).jobs|
    ensures i < |s.jobs|
    ensures Next(c, s, e).jobs[i].limit == s.jobs[i].limit && Next(c, s, e).jobs[i].started == s.jobs[i].started
  {
    if e.Begin? { PoolNotEmpty(c, s, e.i); }
  }

  lemma ReleaseInstants(c: Config, s: State, e: Event, i: nat)
    requires Inv(c, s) && Enabled(c, s, e) && e.Release? && i < |Next(c, s, e).jobs|
    ensures i < |s.jobs|
    ensures Next(c, s, e).jobs[i].limit == s.jobs[i].limit && Next(c, s, e).jobs[i].started == s.jobs[i].started
  {
    assert JobOk(c, s.gate.accepting, s.now, e.i in s.slots.line, s.jobs[e.i]);
  }

  lemma PollInstants(c: Config, s: State, e: Event)
    requires Inv(c, s) && Enabled(c, s, e) && e.Poll?
    ensures var j, j' := s.jobs[e.i], PollAcquire(c, s, e.i, e.t1, e.t2, e.t3, e.fired).jobs[e.i];
            && (j'.limit == j.limit || (j.limit.None? && !j.queued && j'.queued && j'.limit == Some(e.t2 + c.queueTimeout)))
            && (j'.started == j.started || (j'.caller.Admitted? && j'.started == Some(e.t2)))
  {
    assert JobOk(c, s.gate.accepting, s.now, e.i in s.slots.line, s.jobs[e.i]);
  }

  lemma InstantsNext(c: Config, ss: seq<State>, es: seq<Event>, i: nat, k: nat)
    requires IsRun(c, ss, es) && 0 < k < |ss| && i < |ss[k].jobs|
    ensures var j' := ss[k].jobs[i];
            && (j'.limit.Some? ==>
                  (i < |ss[k - 1].jobs| && ss[k - 1].jobs[i].limit == j'.limit) || QueuedAt(c, ss, es, i, k - 1, j'.limit.value))
            && (j'.started.Some? ==>
                  (i < |ss[k - 1].jobs| && ss[k - 1].jobs[i].started == j'.started) || AdmittedAt(ss, es, i, k - 1, j'.started.value))
  {
    RunInv(c, ss, es, k - 1);
    StepInstants(c, ss[k - 1], es[k - 1], i);
  }

  /** The queue deadline is the clock of the poll that queued the request, plus the queue timeout. */
  lemma {:induction false} LimitIsFromPoll(c: Config, ss: seq<State>, es: seq<Event>, i: nat, k: nat)
    requires IsRun(c, ss, es) && k < |ss| && i < |ss[k].jobs| && ss[k].jobs[i].limit.Some?
    ensures exists n: nat | n < k :: QueuedAt(c, ss, es, i, n, ss[k].jobs[i].limit.value)
  {
    if k == 0 {
    } else {
      InstantsNext(c, ss, es, i, k);
      if !QueuedAt(c, ss, es, i, k - 1, ss[k].jobs[i].limit.value) { LimitIsFromPoll(c, ss, es, i, k - 1); }
    }
  }

  /** The execution starts at the clock of the poll that admits the request. */
  lemma {:induction false} StartIsFromPoll(c: Config, ss: seq<State>, es: seq<Event>, i: nat, k: nat)
    requires IsRun(c, ss, es) && k < |ss| && i < |ss[k].jobs| && ss[k].jobs[i].started.Some?
    ensures exists n: nat | n < k :: AdmittedAt(ss, es, i, n, ss[k].jobs[i].started.value)
  {
    if k == 0 {
    } else {
      InstantsNext(c, ss, es, i, k);
      if !AdmittedAt(ss, es, i, k - 1, ss[k].jobs[i].started.value) { StartIsFromPoll(c, ss, es, i, k - 1); }
    }
  }

  // ---- What a poll answers, exactly ----

  /** The semaphore has a permit for request i: handed over, or free. */
  predicate HasPermit(s: State, i: nat)
    requires i < |s.jobs|
  {
    s.jobs[i].seat.Granted? || (i !in s.slots.line && s.slots.free > 0)
  }

  predicate LateAt(j: Job, t: nat) { j.limit.Some? && t >= j.limit.value }

  /** The deadline that the request has, or gets if it is queued by this poll. */
  function DeadlineOf(c: Config, j: Job, t2: nat): nat { if j.limit.Some? then j.limit.value else t2 + c.queueTimeout }

  /**
   One poll, answer by answer. It admits exactly the request that has a permit in time; times out
   exactly the one whose queue deadline it has reached, at the first reading, with a permit in hand,
   or by its timer; and leaves exactly the others waiting.
   */
  lemma PollExactly(c: Config, s: State, e: Event)
    requires Inv(c, s) && Enabled(c, s, e) && e.Poll?
    ensures e.i < |Next(c, s, e).jobs|
    ensures var j, w := s.jobs[e.i], Next(c, s, e).jobs[e.i].caller;
            var open := s.gate.accepting && !LateAt(j, e.t1);
            var timely := open && HasPermit(s, e.i) && !LateAt(j, e.t2);
            var waits := open && !HasPermit(s, e.i) && (j.queued || (s.gate.waiting < c.capacity && e.t2 + c.queueTimeout <= c.clockEnd));
            var rings := e.fired && e.t3 >= DeadlineOf(c, j, e.t2);
            && (w.Admitted? <==> timely && e.t2 + c.inferenceTimeout <= c.clockEnd)
            && (w.Parked? <==> waits && !rings)
            && (w == Leaving(Refused(QueueTimeout)) <==>
                  || (s.gate.accepting && LateAt(j, e.t1))
                  || (open && HasPermit(s, e.i) && LateAt(j, e.t2))
                  || (waits && rings))
            && (w == Leaving(Refused(Unavailable)) <==>
                  || !s.gate.accepting
                  || (timely && e.t2 + c.inferenceTimeout > c.clockEnd)
                  || (open && !HasPermit(s, e.i) && !j.queued && s.gate.waiting < c.capacity && e.t2 + c.queueTimeout > c.clockEnd))
            && (w.Admitted? || w.Parked? || (w.Leaving? && w.outcome.Refused? && EarlyFault(w.outcome.fault)))
  {
    assert JobOk(c, s.gate.accepting, s.now, e.i in s.slots.line, s.jobs[e.i]);
    assert s.gate.waiting <= c.capacity;
  }

  /** The region that spawns: a task exactly if admission is open, a refusal otherwise. */
  lemma SpawnExactly(c: Config, s: State, i: nat)
    requires Inv(c, s) && Enabled(c, s, Spawn(i))
    ensures var s' := Next(c, s, Spawn(i));
            && |s'.jobs| == |s.jobs|
            && (s'.jobs[i].task == Spawned && s'.jobs[i].caller == Awaiting && s'.gate.tasks == s.gate.tasks + {i}
                <==> s.gate.accepting)
            && (s'.jobs[i].caller == Leaving(Refused(Unavailable)) && s'.jobs[i].task.NoTask? <==> !s.gate.accepting)
  {
    assert JobOk(c, s.gate.accepting, s.now, i in s.slots.line, s.jobs[i]);
  }
}
