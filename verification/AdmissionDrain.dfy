/** Once admission has closed, the scheduler can always be drained: nothing can block the end of `run`. */
module AdmissionDrain {
  import opened Wrappers
  import opened Admission
  import opened AdmissionSafety
  import opened AdmissionSteps
  import opened AdmissionRuns

  /** What is left to do for a task until it is joined. */
  function Effort(j: Job): (n: nat) {
    if Live(j.task) then 2 * (6 - Rank(j.task)) + One(j.counted) + One(!j.seat.NoPermit?) else 0
  }

  function AllEffort(jobs: seq<Job>, n: nat): nat
    requires n <= |jobs|
  {
    if n == 0 then 0 else AllEffort(jobs, n - 1) + Effort(jobs[n - 1])
  }

  lemma {:induction false} LessEffort(a: seq<Job>, b: seq<Job>, i: nat, n: nat)
    requires |a| == |b| && n <= |a| && i < |a| && forall k | 0 <= k < |a| && k != i :: a[k] == b[k]
    ensures AllEffort(b, n) == AllEffort(a, n) + if i < n then Effort(b[i]) - Effort(a[i]) else 0
  {
    if n == 0 {
    } else {
      LessEffort(a, b, i, n - 1);
    }
  }

  function Remaining(s: State): nat { AllEffort(s.jobs, |s.jobs|) + if s.run.phase.Returned? then 0 else 1 }

  /** How far the driver is from polling again. */
  function Distance(p: Driver): nat {
    match p
    case Absent => 1
    case Failing(_) => 1
    case _ => 0
  }

  /** Closed, and everything consistent. */
  ghost predicate Closed(c: Config, s: State) { Inv(c, s) && !s.gate.accepting }

  lemma StaysClosed(c: Config, s: State, e: Event)
    requires Closed(c, s) && Enabled(c, s, e)
    ensures Closed(c, Next(c, s, e))
  {
    StepInv(c, s, e);
    StepLater(c, s, e);
  }

  /** A task that has not ended: its next event takes it, and nothing else, a step on. */
  lemma TaskStep(c: Config, s: State, i: nat)
    requires Closed(c, s) && i < |s.jobs| && Live(s.jobs[i].task) && !s.jobs[i].task.Complete?
    ensures var e := NextOf(s, i);
            && Enabled(c, s, e)
            && OnlyJob(s, Next(c, s, e), i) && Effort(Next(c, s, e).jobs[i]) < Effort(s.jobs[i])
            && Next(c, s, e).run.phase == s.run.phase
  {
    assert JobOk(c, s.gate.accepting, s.now, i in s.slots.line, s.jobs[i]);
    if s.jobs[i].task.Spawned? { PoolNotEmpty(c, s, i); }
  }

  /** Joining an ended task leaves less to do. */
  lemma JoinStep(c: Config, s: State, i: nat)
    requires Closed(c, s) && i in s.gate.tasks && Ended(s, i) && (s.run.phase.Polling? || s.run.phase.Asleep?)
    ensures var e := RunPoll(Some(i));
            Enabled(c, s, e) && OnlyJob(s, Next(c, s, e), i) && Effort(Next(c, s, e).jobs[i]) < Effort(s.jobs[i])
  {
  }

  /** With nothing left to join, `run` returns. */
  lemma ReturnStep(c: Config, s: State)
    requires Closed(c, s) && s.gate.tasks == {} && (s.run.phase.Polling? || s.run.phase.Asleep?)
    ensures var s' := Next(c, s, RunPoll(None)); s'.jobs == s.jobs && s'.run.phase.Returned?
  {
  }

  /** Starting, or storing the error that was joined, brings the driver back to polling. */
  lemma DriverStarts(c: Config, s: State)
    requires Closed(c, s) && Distance(s.run.phase) == 1
    ensures var e := if s.run.phase.Failing? then RunFail else RunStart;
            Enabled(c, s, e) && Next(c, s, e).jobs == s.jobs && Next(c, s, e).run.phase.Polling?
  {
  }

  /**
   From every consistent state in which admission is closed there is a finite sequence of
   enabled events after which `run` has returned, with every task joined. So no reachable state
   of a closed scheduler is stuck, whatever happened before.
   */
  lemma {:induction false} CanDrain(c: Config, s: State) returns (ss: seq<State>, es: seq<Event>)
    requires Closed(c, s)
    ensures Steps(c, ss, es) && ss[0] == s
    ensures var last := ss[|ss| - 1]; last.run.phase.Returned? && last.gate.tasks == {}
    decreases Remaining(s), Distance(s.run.phase), 1
  {
    if s.run.phase.Returned? {
      ss, es := [s], [];
    } else if i: nat :| i < |s.jobs| && Live(s.jobs[i].task) && !s.jobs[i].task.Complete? {
      TaskStep(c, s, i);
      LessEffort(s.jobs, Next(c, s, NextOf(s, i)).jobs, i, |s.jobs|);
      ss, es := Continue(c, s, NextOf(s, i));
    } else if Distance(s.run.phase) == 1 {
      DriverStarts(c, s);
      ss, es := Continue(c, s, if s.run.phase.Failing? then RunFail else RunStart);
    } else if i: nat :| i in s.gate.tasks {
      JoinStep(c, s, i);
      LessEffort(s.jobs, Next(c, s, RunPoll(Some(i))).jobs, i, |s.jobs|);
      ss, es := Continue(c, s, RunPoll(Some(i)));
    } else {
      ReturnStep(c, s);
      ss, es := Continue(c, s, RunPoll(None));
    }
  }

  /** One event, and then on from there. */
  lemma {:induction false} Continue(c: Config, s: State, e: Event) returns (ss: seq<State>, es: seq<Event>)
    requires Closed(c, s) && Enabled(c, s, e)
    requires var s' := Next(c, s, e);
             || (|s'.jobs| == |s.jobs| && Remaining(s') < Remaining(s))
             || (s'.jobs == s.jobs && Remaining(s') <= Remaining(s) && Distance(s'.run.phase) < Distance(s.run.phase))
    ensures Steps(c, ss, es) && ss[0] == s
    ensures var last := ss[|ss| - 1]; last.run.phase.Returned? && last.gate.tasks == {}
    decreases Remaining(s), Distance(s.run.phase), 0
  {
    StaysClosed(c, s, e);
    var rest, more := CanDrain(c, Next(c, s, e));
    ss, es := [s] + rest, [e] + more;
    StepsFrom(c, s, e, rest, more);
  }

  lemma StepsFrom(c: Config, s: State, e: Event, rest: seq<State>, more: seq<Event>)
    requires LineInRange(s) && Enabled(c, s, e) && Steps(c, rest, more) && rest[0] == Next(c, s, e)
    ensures Steps(c, [s] + rest, [e] + more) && ([s] + rest)[|rest|] == rest[|rest| - 1]
  {
    var ss, es := [s] + rest, [e] + more;
    forall k | 0 <= k < |es| ensures StepAt(c, ss, es, k) {
      if k > 0 {
        assert StepAt(c, rest, more, k - 1);
        assert ss[k] == rest[k - 1] && es[k] == more[k - 1] && ss[k + 1] == rest[k];
      }
    }
  }

  /** So it is in every reachable state. */
  lemma ReachableDrains(c: Config, ss: seq<State>, es: seq<Event>, k: nat) returns (more: seq<State>, moves: seq<Event>)
    requires IsRun(c, ss, es) && k < |ss| && !ss[k].gate.accepting
    ensures Steps(c, more, moves) && more[0] == ss[k]
    ensures var last := more[|more| - 1]; last.run.phase.Returned? && last.gate.tasks == {}
  {
    RunInv(c, ss, es, k);
    more, moves := CanDrain(c, ss[k]);
  }
}
