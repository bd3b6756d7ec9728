/** What the deployment keeps through every step, failure and crash. */
module DeploymentSafety {
  import opened Wrappers
  import opened Deployment

  /** The process, if there is one, runs c. */
  predicate RunsOnly(w: World, c: Option<Config>) { w.process.Some? ==> w.process == c }

  predicate OldOrNew(w: World, rec: Record) {
    w.current == rec.prior || (w.current == Some(rec.candidate) && rec.candidate in w.passed)
  }

  /** Holds on disk at every moment, also right after a crash. */
  predicate Safe(w: World) {
    match w.transaction
    case None => RunsOnly(w, w.current)
    case Some(rec) =>
      && OldOrNew(w, rec)
      && (RunsOnly(w, rec.prior) || RunsOnly(w, Some(rec.candidate)))
      && (rec.wasRunning ==> rec.prior.Some?)
  }

  /** The record is there, and unchanged. */
  predicate Held(w: World, rec: Record) { Safe(w) && w.transaction == Some(rec) }

  // ---- Runs that follow an outline ----

  /** What may happen to a step, what holds before each step, and what holds after a step that failed. */
  datatype Outline = Outline(allows: Luck -> bool, before: (World, nat) -> bool, failed: (World, nat) -> bool)

  predicate Leads(o: Outline, ops: seq<Op>, w: World, i: nat, luck: Luck)
    requires i < |ops|
  {
    var next := After(w, ops[i], luck);
    if Succeeds(w, ops[i], luck) then o.before(next, i + 1) else o.failed(next, i)
  }

  /** Every step leads on, from every world in which it may be taken. */
  ghost predicate Sound(o: Outline, ops: seq<Op>) {
    forall w: World, i: nat, luck: Luck | i < |ops| && o.before(w, i) && o.allows(luck) :: Leads(o, ops, w, i, luck)
  }

  ghost predicate Follows(o: Outline, t: Trace, steps: nat, i: nat) {
    && t.worlds != [] && i + Taken(t) <= steps
    && (forall j | 0 <= j < Taken(t) :: o.before(t.worlds[j], i + j))
    && (t.ok ==> i + Taken(t) == steps && o.before(Last(t), steps))
    && (!t.ok ==> Taken(t) >= 1 && o.failed(Last(t), i + Taken(t) - 1))
  }

  /** Taken from step i on, a run follows every sound outline that holds where it starts. */
  lemma {:induction false} RunFollows(o: Outline, ops: seq<Op>, w: World, weather: Weather, i: nat)
    requires Sound(o, ops) && i <= |ops| && o.before(w, i) && forall k :: o.allows(weather(k))
    ensures Follows(o, Run(w, ops, weather, i), |ops|, i)
    decreases |ops| - i
  {
    if i == |ops| {
    } else {
      assert Leads(o, ops, w, i, weather(i));
      var next := After(w, ops[i], weather(i));
      if Succeeds(w, ops[i], weather(i)) {
        RunFollows(o, ops, next, weather, i + 1);
        FollowsOn(o, w, Run(next, ops, weather, i + 1), |ops|, i);
      }
    }
  }

  lemma FollowsOn(o: Outline, w: World, rest: Trace, steps: nat, i: nat)
    requires o.before(w, i) && Follows(o, rest, steps, i + 1)
    ensures Follows(o, Trace([w] + rest.worlds, rest.ok), steps, i)
  {
    var t := Trace([w] + rest.worlds, rest.ok);
    assert Last(t) == Last(rest);
    forall j | 0 <= j < Taken(t) ensures o.before(t.worlds[j], i + j) {
      if j > 0 { assert t.worlds[j] == rest.worlds[j - 1] && o.before(rest.worlds[j - 1], i + 1 + (j - 1)); }
    }
  }

  function Anything(): Luck -> bool { luck => true }

  // ---- Recovery ----

  /** The old version is in place, and runs unless it was stopped before or died since. */
  predicate Restored(w: World, rec: Record) {
    && w.transaction.None? && w.current == rec.prior
    && RunsOnly(w, rec.prior) && (!rec.wasRunning ==> w.process.None?)
    && (rec.prior.Some? ==> rec.prior.value in w.passed)
  }

  /** What holds before step i of a recovery, and at 6 when it is complete. */
  predicate RestoreAt(rec: Record, w: World, i: nat) {
    if i >= 6 then Restored(w, rec)
    else
      && Held(w, rec)
      && (i == 1 ==> w.process.None?)
      && (i >= 2 ==> RunsOnly(w, rec.prior))
      && (i >= 3 && rec.prior.Some? ==> rec.prior.value in w.passed)
      && (i >= 4 && !rec.wasRunning ==> w.process.None?)
      && (i >= 5 ==> w.current == rec.prior)
  }

  lemma RestoreStep(rec: Record, w: World, i: nat, luck: Luck)
    requires i < 6 && RestoreAt(rec, w, i)
    ensures var op, next := RestoreOps(rec)[i], After(w, RestoreOps(rec)[i], luck);
            if Succeeds(w, op, luck) then RestoreAt(rec, next, i + 1) else Held(next, rec)
  {
  }

  function Restoration(rec: Record): Outline {
    Outline(Anything(), (w: World, i: nat) => RestoreAt(rec, w, i), (w: World, i: nat) => Held(w, rec))
  }

  lemma RestorationSound(rec: Record)
    ensures Sound(Restoration(rec), RestoreOps(rec))
  {
    var o, ops := Restoration(rec), RestoreOps(rec);
    forall w: World, i: nat, luck: Luck | i < |ops| && o.before(w, i) ensures Leads(o, ops, w, i, luck) {
      RestoreStep(rec, w, i, luck);
    }
  }

  /** A recovery holds the record until its last step, and completes only by restoring the old version. */
  lemma RestoreKeeps(rec: Record, w: World, weather: Weather)
    requires Held(w, rec)
    ensures var t := Restore(w, rec, weather);
            && (forall j | 0 <= j < Taken(t) :: Held(t.worlds[j], rec))
            && (if t.ok then Restored(Last(t), rec) else Held(Last(t), rec))
  {
    var o := Restoration(rec);
    RestorationSound(rec);
    RunFollows(o, RestoreOps(rec), w, weather, 0);
    var t := Restore(w, rec, weather);
    forall j | 0 <= j < Taken(t) ensures Held(t.worlds[j], rec) { assert o.before(t.worlds[j], 0 + j); }
  }

  // ---- Switching ----

  /** The new version is in place, was validated, and runs unless the old one was stopped before or it died since. */
  predicate Committed(w: World, rec: Record) {
    && w.transaction.None? && w.current == Some(rec.candidate) && rec.candidate in w.passed
    && RunsOnly(w, Some(rec.candidate)) && (!rec.wasRunning ==> w.process.None?)
    && (rec.prior.Some? ==> w.previous == rec.prior)
  }

  /** The world in which a switch was planned. */
  predicate Planned(w: World, rec: Record) {
    && w.transaction.None? && w.current == rec.prior && RunsOnly(w, rec.prior)
    && (rec.wasRunning ==> rec.prior.Some?) && (!rec.wasRunning ==> w.process.None?)
  }

  /** The step at which the new configuration is written. */
  function CommitStep(script: Script): nat { if script.Windows? then 5 else 6 }

  function KeepStep(script: Script): nat { if script.Windows? then 6 else 5 }

  /** What holds before step i of a switch, and at 8 when it is complete. */
  predicate SwitchAt(script: Script, rec: Record, w: World, i: nat) {
    if i == 0 then Planned(w, rec)
    else if i >= 8 then Committed(w, rec)
    else
      && w.transaction == Some(rec) && (rec.wasRunning ==> rec.prior.Some?)
      && (i == 1 ==> RunsOnly(w, rec.prior) && (!rec.wasRunning ==> w.process.None?))
      && (i == 2 ==> w.process.None?)
      && (i >= 3 ==> RunsOnly(w, Some(rec.candidate)))
      && (i >= 4 ==> rec.candidate in w.passed)
      && (i >= 5 && !rec.wasRunning ==> w.process.None?)
      && w.current == (if i <= CommitStep(script) then rec.prior else Some(rec.candidate))
      && (i > KeepStep(script) && rec.prior.Some? ==> w.previous == rec.prior)
  }

  lemma SwitchAtIsSafe(script: Script, rec: Record, w: World, i: nat)
    requires SwitchAt(script, rec, w, i)
    ensures Safe(w) && (0 < i < 8 ==> Held(w, rec))
  {
  }

  lemma SwitchStep(script: Script, rec: Record, w: World, i: nat, luck: Luck)
    requires i < 8 && SwitchAt(script, rec, w, i)
    ensures var op, next := SwitchOps(script, rec)[i], After(w, SwitchOps(script, rec)[i], luck);
            if Succeeds(w, op, luck) then SwitchAt(script, rec, next, i + 1)
            else if i == 0 then Planned(next, rec) else Held(next, rec)
  {
  }

  /** Untouched, under way, or done. */
  predicate OnTrack(w: World, rec: Record) { Planned(w, rec) || Held(w, rec) || Committed(w, rec) }

  function Switchover(script: Script, rec: Record): Outline {
    Outline(Anything(), (w: World, i: nat) => SwitchAt(script, rec, w, i),
            (w: World, i: nat) => if i == 0 then Planned(w, rec) else Held(w, rec))
  }

  lemma SwitchoverSound(script: Script, rec: Record)
    ensures Sound(Switchover(script, rec), SwitchOps(script, rec))
  {
    var o, ops := Switchover(script, rec), SwitchOps(script, rec);
    forall w: World, i: nat, luck: Luck | i < |ops| && o.before(w, i) ensures Leads(o, ops, w, i, luck) {
      SwitchStep(script, rec, w, i, luck);
    }
  }

  predicate AllOnTrack(worlds: seq<World>, rec: Record) {
    forall j | 0 <= j < |worlds| :: OnTrack(worlds[j], rec)
  }

  lemma SwitchKeeps(script: Script, rec: Record, w: World, weather: Weather)
    requires Planned(w, rec)
    ensures var t := Run(w, SwitchOps(script, rec), weather, 0);
            && AllOnTrack(t.worlds, rec) && Taken(t) <= 8
            && (t.ok ==> Committed(Last(t), rec))
            && (!t.ok ==> Taken(t) >= 1)
            && (!t.ok ==> if Taken(t) >= 2 then Held(Last(t), rec) else Planned(Last(t), rec))
  {
    var o := Switchover(script, rec);
    SwitchoverSound(script, rec);
    RunFollows(o, SwitchOps(script, rec), w, weather, 0);
    var t := Run(w, SwitchOps(script, rec), weather, 0);
    forall j | 0 <= j < |t.worlds| ensures OnTrack(t.worlds[j], rec) {
      if j < Taken(t) {
        assert o.before(t.worlds[j], 0 + j);
        SwitchAtIsSafe(script, rec, t.worlds[j], j);
      }
    }
  }

  /** Untouched or rolled back, under way, or committed: nothing else is ever on disk. */
  predicate AllOrNothing(w: World, rec: Record) {
    Planned(w, rec) || Held(w, rec) || Committed(w, rec) || Restored(w, rec)
  }

  /**
   A crash at any point of a switch, in any weather, finds the old configuration untouched, or
   the record with the old configuration and the running flag still in it, or the validated new
   configuration committed. The switch ends well exactly by committing.
   */
  lemma SwitchIsAtomic(script: Script, rec: Record, w: World, weather: Weather, rollback: Weather)
    requires Planned(w, rec)
    ensures var t := Switch(script, w, rec, weather, rollback);
            && t.worlds != []
            && (forall j | 0 <= j < |t.worlds| :: AllOrNothing(t.worlds[j], rec))
            && (if t.ok then Committed(Last(t), rec)
                else Planned(Last(t), rec) || Held(Last(t), rec) || Restored(Last(t), rec))
  {
    SwitchKeeps(script, rec, w, weather);
    var tried := Run(w, SwitchOps(script, rec), weather, 0);
    if !tried.ok && |tried.worlds| >= 2 && RollsBack(script, Taken(tried) - 1) {
      RestoreKeeps(rec, Last(tried), rollback);
      JoinIsAtomic(tried, Restore(Last(tried), rec, rollback), rec);
    }
  }

  lemma JoinIsAtomic(tried: Trace, back: Trace, rec: Record)
    requires AllOnTrack(tried.worlds, rec) && back.worlds != []
    requires forall j | 0 <= j < Taken(back) :: Held(back.worlds[j], rec)
    requires Restored(Last(back), rec) || Held(Last(back), rec)
    ensures var t := Join(tried, back);
            Last(t) == Last(back) && forall j | 0 <= j < |t.worlds| :: AllOrNothing(t.worlds[j], rec)
  {
    var t := Join(tried, back);
    forall j | 0 <= j < |t.worlds| ensures AllOrNothing(t.worlds[j], rec) {
      if j < |tried.worlds| { assert OnTrack(tried.worlds[j], rec); }
      else { assert t.worlds[j] == back.worlds[j - |tried.worlds|]; }
    }
  }

  /** To end at a failed step without a rollback is to be killed before the rollback begins. */
  lemma ExitIsKill(script: Script, rec: Record, w: World, weather: Weather, rollback: Weather)
    ensures var tried := Run(w, SwitchOps(script, rec), weather, 0);
            var t := Switch(script, w, rec, weather, rollback);
            Taken(tried) < |t.worlds| && t.worlds[Taken(tried)] == Last(tried)
  {
  }

  lemma AllOrNothingIsSafe(w: World, rec: Record)
    requires AllOrNothing(w, rec)
    ensures Safe(w)
  {
  }

  // ---- Interrupted recoveries ----

  /** A recovery that is killed at some point, or fails. */
  datatype Attempt = Attempt(weather: Weather, crashAt: nat)

  /** Where the world stands after an attempt: at the crash, or where the recovery ended. */
  function Attempted(w: World, rec: Record, a: Attempt): World {
    var t := Restore(w, rec, a.weather);
    if a.crashAt < |t.worlds| then t.worlds[a.crashAt] else Last(t)
  }

  /** Recoveries one after the other, as long as there is a record. */
  function Attempts(w: World, attempts: seq<Attempt>): World
    decreases |attempts|
  {
    if attempts == [] || w.transaction.None? then w
    else Attempts(Attempted(w, w.transaction.value, attempts[0]), attempts[1..])
  }

  lemma AttemptHolds(w: World, rec: Record, a: Attempt)
    requires Held(w, rec)
    ensures Held(Attempted(w, rec, a), rec) || Restored(Attempted(w, rec, a), rec)
  {
    RestoreKeeps(rec, w, a.weather);
  }

  /** Any number of interrupted recoveries either leave the record as it was or have restored the old version. */
  lemma {:induction false} AttemptsHold(w: World, rec: Record, attempts: seq<Attempt>)
    requires Held(w, rec)
    ensures Held(Attempts(w, attempts), rec) || Restored(Attempts(w, attempts), rec)
    decreases |attempts|
  {
    if attempts == [] {
    } else {
      AttemptHolds(w, rec, attempts[0]);
      var next := Attempted(w, rec, attempts[0]);
      if Held(next, rec) { AttemptsHold(next, rec, attempts[1..]); }
    }
  }

  // ---- Every history of commands ----

  /** A command that runs to its end or is killed at some point, or the server dying while no command runs. */
  datatype Episode = Invoked(command: Command, weather: Weather, rollback: Weather, crashAt: nat) | Died

  function Stopped(t: Trace, crashAt: nat): World
    requires t.worlds != []
  {
    if crashAt < |t.worlds| then t.worlds[crashAt] else Last(t)
  }

  lemma ExecuteHasWorlds(script: Script, w: World, plan: Plan, weather: Weather, rollback: Weather)
    ensures Execute(script, w, plan, weather, rollback).worlds != []
  {
  }

  function Next(script: Script, w: World, e: Episode): World {
    match e
    case Died => w.(process := None)
    case Invoked(command, weather, rollback, crashAt) =>
      ExecuteHasWorlds(script, w, PlanOf(script, w, command), weather, rollback);
      Stopped(Execute(script, w, PlanOf(script, w, command), weather, rollback), crashAt)
  }

  function History(script: Script, w: World, episodes: seq<Episode>, n: nat): World
    requires n <= |episodes|
  {
    if n == 0 then w else Next(script, History(script, w, episodes, n - 1), episodes[n - 1])
  }

  lemma PlanIsPlanned(script: Script, w: World, command: Command)
    requires Safe(w)
    ensures PlanOf(script, w, command).Switching? ==> Planned(w, PlanOf(script, w, command).record)
    ensures PlanOf(script, w, command).Restoring? ==> Held(w, PlanOf(script, w, command).record)
  {
  }

  /** No record, and only the current configuration c runs, if anything does. */
  predicate Quiet(w: World, c: Option<Config>) { w.transaction.None? && w.current == c && RunsOnly(w, c) }

  predicate AllQuiet(worlds: seq<World>, c: Option<Config>) {
    forall j | 0 <= j < |worlds| :: Quiet(worlds[j], c)
  }

  /** Starting, validating and stopping the current configuration. */
  predicate Harmless(op: Op, c: Option<Config>) {
    op.Stop? || (op.Start? && c == Some(op.config)) || (op.Validate? && c == Some(op.config))
  }

  lemma {:induction false} HarmlessRun(w: World, ops: seq<Op>, weather: Weather, i: nat, c: Option<Config>)
    requires i <= |ops| && Quiet(w, c) && forall k | i <= k < |ops| :: Harmless(ops[k], c)
    ensures AllQuiet(Run(w, ops, weather, i).worlds, c)
    decreases |ops| - i
  {
    if i == |ops| {
    } else {
      var next := After(w, ops[i], weather(i));
      assert Harmless(ops[i], c) && Quiet(next, c);
      if Succeeds(w, ops[i], weather(i)) { HarmlessRun(next, ops, weather, i + 1, c); }
    }
  }

  lemma LaunchIsQuiet(script: Script, w: World, c: Config, weather: Weather, rollback: Weather)
    requires Quiet(w, Some(c))
    ensures AllQuiet(Execute(script, w, Launching(c), weather, rollback).worlds, Some(c))
  {
    HarmlessRun(w, [Start(c), Validate(c)], weather, 0, Some(c));
    var tried := Run(w, [Start(c), Validate(c)], weather, 0);
    HarmlessRun(Last(tried), [Stop], rollback, 0, Some(c));
  }

  lemma PlaceIsSafe(script: Script, w: World, c: Config, weather: Weather, rollback: Weather)
    requires Quiet(w, None)
    ensures var t := Execute(script, w, Placing(c), weather, rollback); forall j | 0 <= j < |t.worlds| :: Safe(t.worlds[j])
  {
    var next := After(w, WriteCurrent(c), weather(0));
    assert Run(next, [WriteCurrent(c)], weather, 1).worlds == [next];
  }

  /** Every step of every command keeps the deployment safe. */
  lemma CommandIsSafe(script: Script, w: World, command: Command, weather: Weather, rollback: Weather)
    requires Safe(w)
    ensures var t := Execute(script, w, PlanOf(script, w, command), weather, rollback);
            forall j | 0 <= j < |t.worlds| :: Safe(t.worlds[j])
  {
    PlanIsPlanned(script, w, command);
    var plan := PlanOf(script, w, command);
    var t := Execute(script, w, plan, weather, rollback);
    match plan
    case Switching(rec) =>
      SwitchIsAtomic(script, rec, w, weather, rollback);
      forall j | 0 <= j < |t.worlds| ensures Safe(t.worlds[j]) { AllOrNothingIsSafe(t.worlds[j], rec); }
    case Restoring(rec) => RestoreKeeps(rec, w, weather);
    case Launching(c) => LaunchIsQuiet(script, w, c, weather, rollback);
    case Halting => HarmlessRun(w, [Stop], weather, 0, w.current);
    case Placing(c) => PlaceIsSafe(script, w, c, weather, rollback);
    case Refuse =>
  }

  /**
   Whatever commands are given, wherever they are killed and whenever the server dies: the
   deployment is safe at all times. In particular, without a record only the current
   configuration ever runs.
   */
  lemma {:induction false} HistoryIsSafe(script: Script, w: World, episodes: seq<Episode>, n: nat)
    requires Safe(w) && n <= |episodes|
    ensures Safe(History(script, w, episodes, n))
  {
    if n == 0 {
    } else {
      HistoryIsSafe(script, w, episodes, n - 1);
      var v := History(script, w, episodes, n - 1);
      match episodes[n - 1]
      case Died =>
      case Invoked(command, weather, rollback, crashAt) => CommandIsSafe(script, v, command, weather, rollback);
    }
  }

  /** While there is a record, no command but a recovery changes anything. */
  lemma RecordBlocks(script: Script, w: World, e: Episode)
    requires w.transaction.Some? && e.Invoked? && !e.command.Recover?
    ensures Next(script, w, e) == w
  {
  }
}
