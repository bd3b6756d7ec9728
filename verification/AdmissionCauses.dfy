/** Why a request ends as it does: every outcome has its cause, at the very event that decides it. */
module AdmissionCauses {
  import opened Wrappers
  import opened Admission
  import opened AdmissionSafety
  import opened AdmissionSteps
  import opened AdmissionRuns

  /** A refusal in the queue, decided by a poll of `acquire` or by the region that spawns. */
  predicate QueueCause(c: Config, s: State, e: Event, i: nat, f: Fault)
    requires i < |s.jobs|
  {
    var j := s.jobs[i];
    match f
    case QueueFull =>
      && e.Poll? && e.i == i && s.gate.accepting
      && j.caller.Fresh? && s.slots.free == 0 && s.gate.waiting == c.capacity
    case QueueTimeout =>
      && e.Poll? && e.i == i && s.gate.accepting
      && e.t3 >= (if j.limit.Some? then j.limit.value else e.t2 + c.queueTimeout)
    case Unavailable =>
      || (e == Spawn(i) && !s.gate.accepting)
      || (e.Poll? && e.i == i
          && (!s.gate.accepting || e.t2 + c.queueTimeout > c.clockEnd || e.t2 + c.inferenceTimeout > c.clockEnd))
    case _ => false
  }

  /** What the deciding event e was like, and found in s. */
  predicate Cause(c: Config, s: State, e: Event, i: nat, o: Outcome)
    requires i < |s.jobs|
  {
    var j := s.jobs[i];
    if o.Cancelled? then e == Abandon(i)
    else if o.Refused? && EarlyFault(o.fault) then QueueCause(c, s, e, i, o.fault)
    else
      && e.Settle? && e.i == i && j.started.Some?
      && if o == Refused(InferenceTimeout) then e.t >= j.started.value + c.inferenceTimeout
         else e.t < j.started.value + c.inferenceTimeout && Ready(j.task) && o == ResultOf(j.task)
  }

  lemma PollHasCause(c: Config, s: State, e: Event)
    requires Inv(c, s) && Enabled(c, s, e) && e.Poll?
    ensures var j' := PollAcquire(c, s, e.i, e.t1, e.t2, e.t3, e.fired).jobs[e.i];
            Left(j'.caller) ==> Cause(c, s, e, e.i, Final(j'.caller))
  {
    assert JobOk(c, s.gate.accepting, s.now, e.i in s.slots.line, s.jobs[e.i]);
  }

  /** The event at which a request leaves decides its outcome, for its cause. */
  lemma StepHasCause(c: Config, s: State, e: Event, i: nat)
    requires Inv(c, s) && Enabled(c, s, e) && i < |s.jobs| && !Left(s.jobs[i].caller)
    ensures i < |Next(c, s, e).jobs|
    ensures var j' := Next(c, s, e).jobs[i]; Left(j'.caller) ==> Cause(c, s, e, i, Final(j'.caller))
  {
    assert JobOk(c, s.gate.accepting, s.now, i in s.slots.line, s.jobs[i]);
    StepLater(c, s, e);
    if e.Poll? {
      assert JobOk(c, s.gate.accepting, s.now, e.i in s.slots.line, s.jobs[e.i]);
      PollJob(c, s, e.i, e.t1, e.t2, e.t3, e.fired);
      PollHasCause(c, s, e);
    } else if OfCaller(e) {
      CallerHasCause(c, s, e, i);
    } else {
      OthersDecideNothing(c, s, e, i);
    }
  }

  lemma CallerHasCause(c: Config, s: State, e: Event, i: nat)
    requires Inv(c, s) && Enabled(c, s, e) && OfCaller(e) && i < |s.jobs| && !Left(s.jobs[i].caller)
    ensures i < |Next(c, s, e).jobs|
    ensures var j' := Next(c, s, e).jobs[i]; Left(j'.caller) ==> Cause(c, s, e, i, Final(j'.caller))
  {
    assert JobOk(c, s.gate.accepting, s.now, i in s.slots.line, s.jobs[i]);
  }

  lemma OthersDecideNothing(c: Config, s: State, e: Event, i: nat)
    requires Inv(c, s) && Enabled(c, s, e) && !OfCaller(e) && !e.Poll? && i < |s.jobs|
    ensures i < |Next(c, s, e).jobs| && Next(c, s, e).jobs[i].caller == s.jobs[i].caller
  {
    if e.Release? {
      assert JobOk(c, s.gate.accepting, s.now, e.i in s.slots.line, s.jobs[e.i]);
    }
  }

  ghost predicate DecidedAt(c: Config, ss: seq<State>, es: seq<Event>, i: nat, n: nat, o: Outcome) {
    n < |es| && n < |ss| && i < |ss[n].jobs| && Cause(c, ss[n], es[n], i, o)
  }

  /** A decided request stays decided; one that is decided now was undecided before, and has its cause here. */
  lemma StepDecides(c: Config, s: State, e: Event, i: nat)
    requires Inv(c, s) && Enabled(c, s, e) && i < |Next(c, s, e).jobs| && Left(Next(c, s, e).jobs[i].caller)
    ensures i < |s.jobs|
    ensures var o := Final(Next(c, s, e).jobs[i].caller);
            if Left(s.jobs[i].caller) then Final(s.jobs[i].caller) == o && JobLater(s.jobs[i], Next(c, s, e).jobs[i])
            else Cause(c, s, e, i, o)
  {
    if i >= |s.jobs| {
      NewIsFresh(c, s, e, i);
    } else if Left(s.jobs[i].caller) {
      StepLater(c, s, e);
      assert JobLater(s.jobs[i], Next(c, s, e).jobs[i]);
    } else {
      StepHasCause(c, s, e, i);
    }
  }

  /**
   Every outcome has its cause. A request is turned away from a full queue only by a poll that
   found no permit free and the queue at its capacity; it times out only at or behind its queue
   deadline; it is unavailable only because admission had closed or a deadline lies beyond the
   clock; and it is served, failed or timed out in execution only as clock and task say.
   */
  lemma {:induction false} EveryOutcomeHasCause(c: Config, ss: seq<State>, es: seq<Event>, i: nat, k: nat)
    requires IsRun(c, ss, es) && k < |ss| && i < |ss[k].jobs| && Left(ss[k].jobs[i].caller)
    ensures exists n | 0 <= n < k :: DecidedAt(c, ss, es, i, n, Final(ss[k].jobs[i].caller))
  {
    if k == 0 {
    } else {
      RunInv(c, ss, es, k - 1);
      StepDecides(c, ss[k - 1], es[k - 1], i);
      if Left(ss[k - 1].jobs[i].caller) {
        EveryOutcomeHasCause(c, ss, es, i, k - 1);
      } else {
        assert DecidedAt(c, ss, es, i, k - 1, Final(ss[k].jobs[i].caller));
      }
    }
  }

  lemma NewIsFresh(c: Config, s: State, e: Event, i: nat)
    requires Inv(c, s) && Enabled(c, s, e) && |s.jobs| <= i < |Next(c, s, e).jobs|
    ensures Next(c, s, e).jobs[i].caller.Fresh?
  {
    if e.Poll? {
      assert JobOk(c, s.gate.accepting, s.now, e.i in s.slots.line, s.jobs[e.i]);
      PollJob(c, s, e.i, e.t1, e.t2, e.t3, e.fired);
    }
  }

  /** It timed out in the queue, at or behind its deadline. */
  predicate LateIfTimedOut(j: Job, now: nat) {
    Left(j.caller) && Final(j.caller) == Refused(QueueTimeout) ==> j.limit.Some? && j.limit.value <= now
  }

  lemma StepLate(c: Config, s: State, e: Event, s': State, i: nat)
    requires Inv(c, s) && Enabled(c, s, e) && s' == Next(c, s, e) && i < |s'.jobs|
    requires i < |s.jobs| ==> LateIfTimedOut(s.jobs[i], s.now)
    ensures LateIfTimedOut(s'.jobs[i], s'.now)
  {
    if Left(s'.jobs[i].caller) {
      StepDecides(c, s, e, i);
      StepLater(c, s, e);
      if e.Poll? && !Left(s.jobs[i].caller) { TimeoutPoll(c, s, e); }
    }
  }

  /** A request that timed out in the queue had a queue deadline, and it has passed. */
  lemma {:induction false} TimedOutIsLate(c: Config, ss: seq<State>, es: seq<Event>, i: nat, k: nat)
    requires IsRun(c, ss, es) && k < |ss| && i < |ss[k].jobs|
    ensures LateIfTimedOut(ss[k].jobs[i], ss[k].now)
  {
    if k == 0 {
    } else {
      if i < |ss[k - 1].jobs| { TimedOutIsLate(c, ss, es, i, k - 1); }
      LateNext(c, ss, es, i, k);
    }
  }

  lemma LateNext(c: Config, ss: seq<State>, es: seq<Event>, i: nat, k: nat)
    requires IsRun(c, ss, es) && 0 < k < |ss| && i < |ss[k].jobs|
    requires i < |ss[k - 1].jobs| ==> LateIfTimedOut(ss[k - 1].jobs[i], ss[k - 1].now)
    ensures LateIfTimedOut(ss[k].jobs[i], ss[k].now)
  {
    RunInv(c, ss, es, k - 1);
    StepLate(c, ss[k - 1], es[k - 1], ss[k], i);
  }

  lemma TimeoutPoll(c: Config, s: State, e: Event)
    requires Inv(c, s) && Enabled(c, s, e) && e.Poll?
    ensures var j' := PollAcquire(c, s, e.i, e.t1, e.t2, e.t3, e.fired).jobs[e.i];
            j'.caller == Leaving(Refused(QueueTimeout)) ==> j'.limit.Some? && j'.limit.value <= e.t3
  {
    assert JobOk(c, s.gate.accepting, s.now, e.i in s.slots.line, s.jobs[e.i]);
  }

  /** A poll answers "queue full" if and only if it is the first, no permit is free and the queue is at its capacity. */
  lemma QueueFullExactly(c: Config, s: State, e: Event)
    requires Inv(c, s) && Enabled(c, s, e) && e.Poll?
    ensures e.i < |Next(c, s, e).jobs|
    ensures Next(c, s, e).jobs[e.i].caller == Leaving(Refused(QueueFull))
      <==> s.gate.accepting && s.jobs[e.i].caller.Fresh? && s.slots.free == 0 && s.gate.waiting == c.capacity
  {
    assert JobOk(c, s.gate.accepting, s.now, e.i in s.slots.line, s.jobs[e.i]);
  }
}
