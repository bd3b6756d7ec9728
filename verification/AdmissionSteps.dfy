/** Each event of the admission protocol keeps the invariant. */
module AdmissionSteps {
  import opened Wrappers
  import opened Admission
  import opened AdmissionSafety

  // ---- Frame lemmas: an event changes one job, or closes admission ----

  /** From s to s' only job i changes. */
  predicate OnlyJob(s: State, s': State, i: nat) {
    i < |s.jobs| && |s'.jobs| == |s.jobs| && s'.jobs == s.jobs[i := s'.jobs[i]]
  }

  lemma FrameJobs(c: Config, s: State, s': State, i: nat)
    requires JobsInv(c, s) && OnlyJob(s, s', i)
    requires s'.gate.accepting == s.gate.accepting && s'.slots.line == s.slots.line && s'.now >= s.now
    requires JobOk(c, s'.gate.accepting, s'.now, i in s'.slots.line, s'.jobs[i])
    ensures JobsInv(c, s')
  {
    forall k | 0 <= k < |s'.jobs| ensures JobOk(c, s'.gate.accepting, s'.now, k in s'.slots.line, s'.jobs[k]) {
      assert JobOk(c, s.gate.accepting, s.now, k in s.slots.line, s.jobs[k]);
    }
  }

  /** The driver cannot see a change of job i that neither starts, ends nor joins its task. */
  lemma FrameDriver(s: State, s': State, i: nat)
    requires DriverInv(s) && OnlyJob(s, s', i)
    requires s'.jobs[i].task == s.jobs[i].task || (Quiet(s.jobs[i].task) && Quiet(s'.jobs[i].task))
    requires s'.gate.accepting == s.gate.accepting && s'.gate.tasks == s.gate.tasks && s'.gate.driver == s.gate.driver
    requires s'.run == s.run
    ensures DriverInv(s')
  {
    assert forall k | 0 <= k < |s.jobs| && k != i :: s'.jobs[k] == s.jobs[k];
  }

  predicate Quiet(t: Task) {
    Live(t) && !t.Complete?
  }

  lemma FrameLine(s: State, i: nat)
    requires LineInv(s) && i in s.slots.line
    ensures forall x :: x in Without(s.slots.line, i) <==> x in s.slots.line && x != i
    ensures var r := Without(s.slots.line, i); forall k, l | 0 <= k < l < |r| :: r[k] != r[l]
  {
    var k := Position(s.slots.line, i);
    var r := Without(s.slots.line, i);
    forall x | x in s.slots.line && x != i ensures x in r {
      var p :| 0 <= p < |s.slots.line| && s.slots.line[p] == x;
      assert r[if p < k then p else p - 1] == x;
    }
  }

  /** Only job i changes, and the counters change by what it gains. */
  lemma FrameCounts(c: Config, s: State, s': State, i: nat)
    requires CountInv(c, s) && OnlyJob(s, s', i)
    requires var d := Minus(Weigh(s'.jobs[i]), Weigh(s.jobs[i]));
             && 0 <= s'.slots.free == s.slots.free - d.permits
             && s'.gate.waiting == s.gate.waiting + d.queued <= c.capacity
             && s'.gate.inflight == s.gate.inflight + d.counted
             && s'.sessions == s.sessions - d.out
             && d.spawned + d.out <= 0
    ensures CountInv(c, s')
  {
    TotalPut(s.jobs, i, s'.jobs[i]);
  }

  lemma Tail(line: seq<nat>)
    requires line != [] && forall k, l | 0 <= k < l < |line| :: line[k] != line[l]
    ensures forall x :: x in line[1..] <==> x in line && x != line[0]
  {
    forall x | x in line && x != line[0] ensures x in line[1..] {
      var p :| 0 <= p < |line| && line[p] == x;
      assert line[1..][p - 1] == x;
    }
  }

  lemma GrantJobs(c: Config, s: State)
    requires LineInv(s) && JobsInv(c, s)
    ensures JobsInv(c, Grant(s)) && LineInv(Grant(s))
  {
    if s.slots.line != [] {
      Tail(s.slots.line);
      assert JobOk(c, s.gate.accepting, s.now, true, s.jobs[s.slots.line[0]]);
    }
  }

  lemma GrantCounts(c: Config, s: State)
    requires LineInv(s) && CountInv(c, s.(slots := s.slots.(free := s.slots.free + 1))) && s.slots.free >= 0
    requires s.slots.line != [] ==> s.jobs[s.slots.line[0]].seat.NoPermit?
    ensures CountInv(c, Grant(s))
  {
    if s.slots.line != [] {
      FrameCounts(c, s.(slots := s.slots.(free := s.slots.free + 1)), Grant(s), s.slots.line[0]);
    }
  }

  lemma GrantInv(c: Config, s: State)
    requires LineInv(s) && JobsInv(c, s) && DriverInv(s)
    requires s.slots.free >= 0 && CountInv(c, s.(slots := s.slots.(free := s.slots.free + 1)))
    ensures Inv(c, Grant(s))
  {
    if s.slots.line != [] {
      var h := s.slots.line[0];
      assert JobOk(c, s.gate.accepting, s.now, true, s.jobs[h]);
      FrameDriver(s, Grant(s), h);
    }
    GrantCounts(c, s);
    GrantJobs(c, s);
  }

  lemma ShutInv(c: Config, s: State)
    requires Inv(c, s)
    ensures Inv(c, Shut(s))
  {
  }

  // ---- The events ----

  lemma ArriveInv(c: Config, s: State)
    requires Inv(c, s)
    ensures Inv(c, Next(c, s, Arrive))
  {
    TotalArrive(s.jobs);
  }

  ghost predicate PollKeeps(c: Config, s: State, s': State, i: nat, now: nat) {
    && OnlyJob(s, s', i)
    && JobOk(c, s.gate.accepting, now, i in s'.slots.line, s'.jobs[i])
    && CountInv(c, s')
    && s'.jobs[i].task == s.jobs[i].task && s'.now == s.now && s'.run == s.run
    && s'.gate == s.gate.(waiting := s'.gate.waiting, inflight := s'.gate.inflight)
    && s'.slots.closed == s.slots.closed && s'.slots.free <= s.slots.free
    && (s'.slots.line == s.slots.line || (i !in s.slots.line && s.slots.free <= 0 && s.gate.accepting && s'.slots.line == s.slots.line + [i]))
  }

  lemma StartKeeps(c: Config, s: State, free: nat, i: nat, t: nat, now: nat)
    requires i < |s.jobs| && CountInv(c, s) && JobOk(c, s.gate.accepting, s.now, i in s.slots.line, s.jobs[i]) && s.now <= t <= now
    requires s.jobs[i].caller.Fresh? || s.jobs[i].caller.Parked?
    requires s.jobs[i].limit.Some? ==> s.jobs[i].queued
    requires i !in s.slots.line && free == s.slots.free - (1 - One(!s.jobs[i].seat.NoPermit?))
    ensures PollKeeps(c, s, Start(c, s.(slots := s.slots.(free := free)), i, s.jobs[i].(seat := Held), t), i, now)
  {
    FrameCounts(c, s, Start(c, s.(slots := s.slots.(free := free)), i, s.jobs[i].(seat := Held), t), i);
  }

  lemma PendKeeps(c: Config, s: State, i: nat, t2: nat, t3: nat, fired: bool)
    requires i < |s.jobs| && CountInv(c, s) && JobOk(c, s.gate.accepting, s.now, i in s.slots.line, s.jobs[i]) && s.now <= t2 <= t3
    requires s.jobs[i].caller.Fresh? || s.jobs[i].caller.Parked?
    requires s.gate.accepting && s.jobs[i].seat.NoPermit? && (i in s.slots.line || s.slots.free <= 0)
    ensures PollKeeps(c, s, Pend(c, s, i, t2, t3, fired), i, t3)
  {
    FrameCounts(c, s, Pend(c, s, i, t2, t3, fired), i);
  }

  lemma LeaveKeeps(c: Config, s: State, i: nat, f: Fault, now: nat)
    requires i < |s.jobs| && CountInv(c, s) && JobOk(c, s.gate.accepting, s.now, i in s.slots.line, s.jobs[i]) && s.now <= now
    requires s.jobs[i].caller.Fresh? || s.jobs[i].caller.Parked?
    requires EarlyFault(f)
    ensures PollKeeps(c, s, Leave(s, i, Refused(f)), i, now)
  {
    FrameCounts(c, s, Leave(s, i, Refused(f)), i);
  }

  lemma PollJob(c: Config, s: State, i: nat, t1: nat, t2: nat, t3: nat, fired: bool)
    requires i < |s.jobs| && CountInv(c, s) && JobOk(c, s.gate.accepting, s.now, i in s.slots.line, s.jobs[i]) && s.now <= t1 <= t2 <= t3
    requires s.jobs[i].caller.Fresh? || s.jobs[i].caller.Parked?
    ensures PollKeeps(c, s, PollAcquire(c, s, i, t1, t2, t3, fired), i, t3)
  {
    var j := s.jobs[i];
    if !s.gate.accepting || s.slots.closed || (j.queued && j.limit.Some? && t1 >= j.limit.value) {
      LeaveKeeps(c, s, i, Unavailable, t3);
      LeaveKeeps(c, s, i, QueueTimeout, t3);
    } else if j.seat.Granted? {
      StartKeeps(c, s, s.slots.free, i, t2, t3);
    } else if i !in s.slots.line && s.slots.free > 0 {
      StartKeeps(c, s, s.slots.free - 1, i, t2, t3);
    } else {
      PendKeeps(c, s, i, t2, t3, fired);
    }
  }

  lemma KeepsInv(c: Config, s: State, s': State, i: nat, now: nat)
    requires Inv(c, s) && PollKeeps(c, s, s', i, now) && s.now <= now
    ensures Inv(c, s'.(now := now))
  {
    forall k | 0 <= k < |s'.jobs| ensures JobOk(c, s'.gate.accepting, now, k in s'.slots.line, s'.jobs[k]) {
      assert JobOk(c, s.gate.accepting, s.now, k in s.slots.line, s.jobs[k]);
    }
    FrameDriver(s, s'.(now := now), i);
  }

  lemma PollInv(c: Config, s: State, i: nat, t1: nat, t2: nat, t3: nat, fired: bool)
    requires Inv(c, s) && Enabled(c, s, Poll(i, t1, t2, t3, fired))
    ensures Inv(c, PollAcquire(c, s, i, t1, t2, t3, fired).(now := t3))
  {
    assert JobOk(c, s.gate.accepting, s.now, i in s.slots.line, s.jobs[i]);
    PollJob(c, s, i, t1, t2, t3, fired);
    KeepsInv(c, s, PollAcquire(c, s, i, t1, t2, t3, fired), i, t3);
  }

  lemma ReleaseInv(c: Config, s: State, i: nat)
    requires Inv(c, s) && Enabled(c, s, Release(i))
    ensures Inv(c, Next(c, s, Release(i)))
  {
    assert JobOk(c, s.gate.accepting, s.now, i in s.slots.line, s.jobs[i]);
    if i in s.slots.line {
      FrameLine(s, i);
    } else {
      var j := s.jobs[i].(seat := NoPermit);
      TotalPut(s.jobs, i, j);
      FrameJobs(c, s, Put(s, i, j), i);
      FrameDriver(s, Put(s, i, j), i);
      GrantInv(c, Put(s, i, j));
    }
  }

  lemma SpawnJobs(c: Config, s: State, i: nat)
    requires JobsInv(c, s) && LineInRange(s) && Enabled(c, s, Spawn(i))
    ensures JobsInv(c, Next(c, s, Spawn(i)))
  {
    assert JobOk(c, s.gate.accepting, s.now, i in s.slots.line, s.jobs[i]);
    FrameJobs(c, s, Next(c, s, Spawn(i)), i);
  }

  lemma SpawnDriver(c: Config, s: State, i: nat)
    requires DriverInv(s) && LineInRange(s) && Enabled(c, s, Spawn(i)) && s.jobs[i].task.NoTask?
    ensures DriverInv(Next(c, s, Spawn(i)))
  {
    var s' := Next(c, s, Spawn(i));
    assert forall k | 0 <= k < |s.jobs| && k != i :: s'.jobs[k] == s.jobs[k];
  }

  lemma SpawnInv(c: Config, s: State, i: nat)
    requires Inv(c, s) && Enabled(c, s, Spawn(i))
    ensures Inv(c, Next(c, s, Spawn(i)))
  {
    var s' := Next(c, s, Spawn(i));
    assert JobOk(c, s.gate.accepting, s.now, i in s.slots.line, s.jobs[i]);
    SpawnJobs(c, s, i);
    SpawnDriver(c, s, i);
    TotalPut(s.jobs, i, s'.jobs[i]);
    if s.gate.accepting { OwnPermits(c, s', |s'.jobs|); }
  }

  /** A task about to run finds a session in the pool. */
  lemma PoolNotEmpty(c: Config, s: State, i: nat)
    requires CountInv(c, s) && i < |s.jobs| && s.jobs[i].task.Spawned?
    ensures s.sessions > 0
  {
    SumAtLeast(Loads(s.jobs), i, |s.jobs|);
  }

  lemma BeginInv(c: Config, s: State, i: nat)
    requires Inv(c, s) && Enabled(c, s, Begin(i))
    ensures Inv(c, Next(c, s, Begin(i)))
  {
    PoolNotEmpty(c, s, i);
    var s' := Next(c, s, Begin(i));
    assert JobOk(c, s.gate.accepting, s.now, i in s.slots.line, s.jobs[i]);
    FrameCounts(c, s, s', i);
    FrameJobs(c, s, s', i);
    FrameDriver(s, s', i);
  }

  lemma TaskInv(c: Config, s: State, e: Event)
    requires Inv(c, s) && Enabled(c, s, e)
    requires e.Finish? || e.Fail?
    ensures Inv(c, Next(c, s, e))
  {
    var s' := Next(c, s, e);
    assert JobOk(c, s.gate.accepting, s.now, e.i in s.slots.line, s.jobs[e.i]);
    FrameCounts(c, s, s', e.i);
    FrameJobs(c, s, s', e.i);
    FrameDriver(s, s', e.i);
  }

  lemma SendInv(c: Config, s: State, i: nat)
    requires Inv(c, s) && Enabled(c, s, Send(i))
    ensures Inv(c, Next(c, s, Send(i)))
  {
    var s' := Next(c, s, Send(i));
    assert JobOk(c, s.gate.accepting, s.now, i in s.slots.line, s.jobs[i]);
    FrameCounts(c, s, s', i);
    FrameJobs(c, s, s', i);
    FrameDriver(s, s', i);
  }

  lemma FailCloseInv(c: Config, s: State, i: nat)
    requires Inv(c, s) && Enabled(c, s, FailClose(i))
    ensures Inv(c, Next(c, s, FailClose(i)))
  {
    var s' := Next(c, s, FailClose(i));
    TotalPut(s.jobs, i, s'.jobs[i]);
    assert JobOk(c, s.gate.accepting, s.now, i in s.slots.line, s.jobs[i]);
  }

  lemma ConcludeInv(c: Config, s: State, i: nat)
    requires Inv(c, s) && Enabled(c, s, Conclude(i))
    ensures Inv(c, Next(c, s, Conclude(i)))
  {
    var s' := Next(c, s, Conclude(i));
    assert JobOk(c, s.gate.accepting, s.now, i in s.slots.line, s.jobs[i]);
    FrameCounts(c, s, s', i);
    FrameJobs(c, s, s', i);
    assert forall k | 0 <= k < |s.jobs| && k != i :: s'.jobs[k] == s.jobs[k];
  }

  lemma AbandonInv(c: Config, s: State, i: nat)
    requires Inv(c, s) && Enabled(c, s, Abandon(i))
    ensures Inv(c, Next(c, s, Abandon(i)))
  {
    var s' := Next(c, s, Abandon(i));
    assert JobOk(c, s.gate.accepting, s.now, i in s.slots.line, s.jobs[i]);
    if s.jobs[i].caller.Parked? {
      FrameCounts(c, s, s', i);
      FrameJobs(c, s, s', i);
    } else {
      FrameCounts(c, s, s', i);
      FrameJobs(c, s, s', i);
    }
    FrameDriver(s, s', i);
  }

  lemma DropEntryInv(c: Config, s: State, i: nat)
    requires Inv(c, s) && Enabled(c, s, DropEntry(i))
    ensures Inv(c, Next(c, s, DropEntry(i)))
  {
    var s' := Next(c, s, DropEntry(i));
    assert JobOk(c, s.gate.accepting, s.now, i in s.slots.line, s.jobs[i]);
    FrameCounts(c, s, s', i);
    FrameJobs(c, s, s', i);
    FrameDriver(s, s', i);
  }

  lemma UncountInv(c: Config, s: State, i: nat)
    requires Inv(c, s) && Enabled(c, s, Uncount(i))
    ensures Inv(c, Next(c, s, Uncount(i)))
  {
    var s' := Next(c, s, Uncount(i));
    assert JobOk(c, s.gate.accepting, s.now, i in s.slots.line, s.jobs[i]);
    FrameCounts(c, s, s', i);
    FrameJobs(c, s, s', i);
    FrameDriver(s, s', i);
  }

  lemma SettleInv(c: Config, s: State, i: nat, t: nat)
    requires Inv(c, s) && Enabled(c, s, Settle(i, t))
    ensures Inv(c, Next(c, s, Settle(i, t)))
  {
    var s' := Next(c, s, Settle(i, t));
    assert JobOk(c, s.gate.accepting, s.now, i in s.slots.line, s.jobs[i]);
    FrameCounts(c, s, s', i);
    FrameJobs(c, s, s', i);
    FrameDriver(s, s', i);
  }

  lemma PollDriverInv(s: State, k: Option<nat>)
    requires DriverInv(s) && (s.run.phase.Polling? || s.run.phase.Asleep?)
    requires match k case Some(i) => i in s.gate.tasks && Ended(s, i) case None => forall i | i in s.gate.tasks :: !Ended(s, i)
    ensures DriverInv(PollDriver(s, k))
  {
    var s' := PollDriver(s, k);
    if k.Some? {
      assert forall i | 0 <= i < |s.jobs| && i != k.value :: s'.jobs[i] == s.jobs[i];
    }
  }

  lemma JoinInv(c: Config, s: State, i: nat)
    requires Inv(c, s) && Enabled(c, s, RunPoll(Some(i)))
    ensures Inv(c, PollDriver(s, Some(i)))
  {
    var s' := PollDriver(s, Some(i));
    PollDriverInv(s, Some(i));
    assert JobOk(c, s.gate.accepting, s.now, i in s.slots.line, s.jobs[i]);
    FrameCounts(c, s, s', i);
    FrameJobs(c, s, s', i);
  }

  lemma SleepInv(c: Config, s: State)
    requires Inv(c, s) && Enabled(c, s, RunPoll(None))
    ensures Inv(c, PollDriver(s, None))
  {
    PollDriverInv(s, None);
  }

  lemma RunFailInv(c: Config, s: State)
    requires Inv(c, s) && Enabled(c, s, RunFail)
    ensures Inv(c, Next(c, s, RunFail))
  {
  }

  /** Every event keeps the invariant. */
  lemma StepInv(c: Config, s: State, e: Event)
    requires Inv(c, s) && Enabled(c, s, e)
    ensures Inv(c, Next(c, s, e))
  {
    match e
    case Arrive => ArriveInv(c, s);
    case Poll(i, t1, t2, t3, fired) => PollInv(c, s, i, t1, t2, t3, fired);
    case Release(i) => ReleaseInv(c, s, i);
    case Spawn(i) => SpawnInv(c, s, i);
    case FailClose(i) => FailCloseInv(c, s, i);
    case Conclude(i) => ConcludeInv(c, s, i);
    case Settle(i, t) => SettleInv(c, s, i, t);
    case Close => ShutInv(c, s);
    case RunPoll(k) => if k.Some? { JoinInv(c, s, k.value); } else { SleepInv(c, s); }
    case RunFail => RunFailInv(c, s);
    case RunStart =>
    case RunCancel =>
    case Begin(i) => BeginInv(c, s, i);
    case Finish(_, _) => TaskInv(c, s, e);
    case Fail(_) => TaskInv(c, s, e);
    case Send(i) => SendInv(c, s, i);
    case Abandon(i) => AbandonInv(c, s, i);
    case DropEntry(i) => DropEntryInv(c, s, i);
    case Uncount(i) => UncountInv(c, s, i);
  }
}
