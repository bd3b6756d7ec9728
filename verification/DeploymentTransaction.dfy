/** A switch with its recoveries as one transaction: what it settles on, and that the running state is kept. */
module DeploymentTransaction {
  import opened Wrappers
  import opened Deployment
  import opened DeploymentSafety

  // ---- Weather ----

  /** The server does not die by itself. */
  ghost predicate Calm(weather: Weather) { forall i :: !weather(i).dies }

  /** Every step works, the validation of the old version among them, and the server does not die. */
  ghost predicate Fair(weather: Weather) { forall i :: weather(i) == Luck(true, false) }

  function NoDeath(): Luck -> bool { (luck: Luck) => !luck.dies }

  function Sunshine(): Luck -> bool { (luck: Luck) => luck == Luck(true, false) }

  predicate RunsAsBefore(w: World, rec: Record) {
    w.process == if rec.wasRunning then rec.prior else None
  }

  /** Once the record is gone, the current version runs exactly if a version ran before the switch. */
  predicate KeptRunning(w: World, rec: Record) {
    w.transaction.None? ==> w.process == if rec.wasRunning then w.current else None
  }

  // ---- Recoveries ----

  predicate CalmRestoreAt(rec: Record, w: World, i: nat) {
    && RestoreAt(rec, w, i)
    && (2 <= i <= 3 ==> w.process == rec.prior)
    && (i >= 4 ==> RunsAsBefore(w, rec))
  }

  lemma CalmRestoreStep(rec: Record, w: World, i: nat, luck: Luck)
    requires i < 6 && CalmRestoreAt(rec, w, i) && !luck.dies
    ensures var op, next := RestoreOps(rec)[i], After(w, RestoreOps(rec)[i], luck);
            && (Succeeds(w, op, luck) ==> CalmRestoreAt(rec, next, i + 1))
            && (luck.works ==> Succeeds(w, op, luck))
  {
    RestoreStep(rec, w, i, luck);
  }

  /** If the server does not die, a recovery that completes has restored the running state, too. */
  lemma CalmRestore(rec: Record, w: World, weather: Weather)
    requires Held(w, rec) && Calm(weather) && Restore(w, rec, weather).ok
    ensures RunsAsBefore(Last(Restore(w, rec, weather)), rec)
  {
    var o := Outline(NoDeath(), (v: World, i: nat) => CalmRestoreAt(rec, v, i), (v: World, i: nat) => true);
    var ops := RestoreOps(rec);
    forall v: World, i: nat, luck: Luck | i < |ops| && o.before(v, i) && o.allows(luck) ensures Leads(o, ops, v, i, luck) {
      CalmRestoreStep(rec, v, i, luck);
    }
    RunFollows(o, ops, w, weather, 0);
  }

  /** If every step works besides, it does complete. */
  lemma FairRestore(rec: Record, w: World, weather: Weather)
    requires Held(w, rec) && Fair(weather)
    ensures Restore(w, rec, weather).ok
  {
    var o := Outline(Sunshine(), (v: World, i: nat) => CalmRestoreAt(rec, v, i), (v: World, i: nat) => false);
    var ops := RestoreOps(rec);
    forall v: World, i: nat, luck: Luck | i < |ops| && o.before(v, i) && o.allows(luck) ensures Leads(o, ops, v, i, luck) {
      CalmRestoreStep(rec, v, i, luck);
    }
    RunFollows(o, ops, w, weather, 0);
  }

  /**
   From any moment at which a record exists, any number of interrupted recoveries followed by
   one in which every step works ends with the old configuration, running exactly if it ran
   before, and without a record. This covers an old configuration of "none".
   */
  lemma RecoveryCompletes(w: World, rec: Record, attempts: seq<Attempt>, weather: Weather)
    requires Held(w, rec) && Fair(weather)
    ensures var v := Attempts(w, attempts);
            Held(v, rec) ==>
              && Restore(v, rec, weather).ok
              && Restored(Last(Restore(v, rec, weather)), rec)
              && RunsAsBefore(Last(Restore(v, rec, weather)), rec)
    ensures Held(Attempts(w, attempts), rec) || Restored(Attempts(w, attempts), rec)
  {
    AttemptsHold(w, rec, attempts);
    var v := Attempts(w, attempts);
    if Held(v, rec) {
      RestoreKeeps(rec, v, weather);
      FairRestore(rec, v, weather);
      CalmRestore(rec, v, weather);
    }
  }

  lemma AttemptKeepsRunning(w: World, rec: Record, a: Attempt)
    requires Held(w, rec) && Calm(a.weather)
    ensures KeptRunning(Attempted(w, rec, a), rec)
  {
    RestoreKeeps(rec, w, a.weather);
    if Restore(w, rec, a.weather).ok { CalmRestore(rec, w, a.weather); }
  }

  ghost predicate AllCalm(attempts: seq<Attempt>) {
    forall i | 0 <= i < |attempts| :: Calm(attempts[i].weather)
  }

  lemma {:induction false} AttemptsKeepRunning(w: World, rec: Record, attempts: seq<Attempt>)
    requires Held(w, rec) || (w.transaction.None? && KeptRunning(w, rec))
    requires AllCalm(attempts)
    ensures KeptRunning(Attempts(w, attempts), rec)
    decreases |attempts|
  {
    if attempts == [] || w.transaction.None? {
    } else {
      assert Calm(attempts[0].weather);
      AttemptHolds(w, rec, attempts[0]);
      AttemptKeepsRunning(w, rec, attempts[0]);
      AttemptsKeepRunning(Attempted(w, rec, attempts[0]), rec, attempts[1..]);
    }
  }

  // ---- Switches ----

  /** The world in which a switch was planned, with the running flag as it is. */
  predicate Begun(w: World, rec: Record) { Planned(w, rec) && rec.wasRunning == w.process.Some? }

  predicate CalmSwitchAt(script: Script, rec: Record, w: World, i: nat) {
    && SwitchAt(script, rec, w, i)
    && (i == 0 ==> Begun(w, rec))
    && (3 <= i <= 4 ==> w.process == Some(rec.candidate))
    && (i >= 5 ==> w.process == if rec.wasRunning then Some(rec.candidate) else None)
  }

  /** After a step that failed: untouched at first, and with the record from then on. */
  predicate SwitchFailed(script: Script, rec: Record, w: World, i: nat) {
    if i == 0 then Begun(w, rec)
    else Held(w, rec) && w.current == (if i <= CommitStep(script) then rec.prior else Some(rec.candidate))
  }

  lemma CalmSwitchStep(script: Script, rec: Record, w: World, i: nat, luck: Luck)
    requires i < 8 && CalmSwitchAt(script, rec, w, i) && !luck.dies
    ensures var op, next := SwitchOps(script, rec)[i], After(w, SwitchOps(script, rec)[i], luck);
            && (if Succeeds(w, op, luck) then CalmSwitchAt(script, rec, next, i + 1) else SwitchFailed(script, rec, next, i))
            && (luck.works ==> Succeeds(w, op, luck))
  {
    SwitchStep(script, rec, w, i, luck);
  }

  lemma CalmSwitch(script: Script, rec: Record, w: World, weather: Weather)
    requires Begun(w, rec) && Calm(weather)
    ensures var t := Run(w, SwitchOps(script, rec), weather, 0);
            && Taken(t) <= 8
            && (forall j | 0 <= j < Taken(t) :: CalmSwitchAt(script, rec, t.worlds[j], j))
            && (t.ok ==> CalmSwitchAt(script, rec, Last(t), 8))
            && (!t.ok ==> Taken(t) >= 1 && SwitchFailed(script, rec, Last(t), Taken(t) - 1))
  {
    var o := Outline(NoDeath(), (v: World, i: nat) => CalmSwitchAt(script, rec, v, i),
                     (v: World, i: nat) => SwitchFailed(script, rec, v, i));
    var ops := SwitchOps(script, rec);
    forall v: World, i: nat, luck: Luck | i < |ops| && o.before(v, i) && o.allows(luck) ensures Leads(o, ops, v, i, luck) {
      CalmSwitchStep(script, rec, v, i, luck);
    }
    RunFollows(o, ops, w, weather, 0);
    var t := Run(w, ops, weather, 0);
    forall j | 0 <= j < Taken(t) ensures CalmSwitchAt(script, rec, t.worlds[j], j) { assert o.before(t.worlds[j], 0 + j); }
  }

  /**
   "Running state preserved": if the server does not die by itself, a switch that ends well
   leaves the new version running exactly if the old one ran.
   */
  lemma CommittedKeepsRunning(script: Script, rec: Record, w: World, weather: Weather, rollback: Weather)
    requires Begun(w, rec) && Calm(weather) && Switch(script, w, rec, weather, rollback).ok
    ensures Last(Switch(script, w, rec, weather, rollback)).process == if rec.wasRunning then Some(rec.candidate) else None
  {
    CalmSwitch(script, rec, w, weather);
  }

  /** A release is changed by an update, and nothing else. */
  lemma UpdateKeepsSettings(script: Script, w: World, release: string)
    requires PlanOf(script, w, Update(Some(release))).Switching?
    ensures w.current.Some?
    ensures PlanOf(script, w, Update(Some(release))).record
         == Record(w.current, Config(release, w.current.value.settings), w.process.Some?)
  {
  }

  /** What an update that ends well leaves behind: the new release under the old settings, validated, running as before. */
  lemma UpdateCommits(script: Script, w: World, release: string, weather: Weather, rollback: Weather)
    requires Safe(w) && Calm(weather)
    requires var plan := PlanOf(script, w, Update(Some(release)));
             plan.Switching? && Execute(script, w, plan, weather, rollback).ok
    ensures var t := Execute(script, w, PlanOf(script, w, Update(Some(release))), weather, rollback);
            && t.worlds != [] && w.current.Some?
            && var v, c := Last(t), Config(release, w.current.value.settings);
               && v.current == Some(c) && c in v.passed && v.previous == w.current && v.transaction.None?
               && v.process == if w.process.Some? then Some(c) else None
  {
    UpdateKeepsSettings(script, w, release);
    PlanIsPlanned(script, w, Update(Some(release)));
    var rec := PlanOf(script, w, Update(Some(release))).record;
    SwitchIsAtomic(script, rec, w, weather, rollback);
    CommittedKeepsRunning(script, rec, w, weather, rollback);
  }

  /** Every world of a switch without a record, before it and behind it, keeps the running state. */
  lemma SwitchKeepsRunning(script: Script, rec: Record, w: World, weather: Weather, rollback: Weather)
    requires Begun(w, rec) && Calm(weather) && Calm(rollback)
    ensures var t := Switch(script, w, rec, weather, rollback);
            forall j | 0 <= j < |t.worlds| :: KeptRunning(t.worlds[j], rec)
  {
    CalmSwitch(script, rec, w, weather);
    var tried := Run(w, SwitchOps(script, rec), weather, 0);
    var t := Switch(script, w, rec, weather, rollback);
    if !tried.ok && |tried.worlds| >= 2 && RollsBack(script, Taken(tried) - 1) {
      var back := Restore(Last(tried), rec, rollback);
      RestoreKeeps(rec, Last(tried), rollback);
      if back.ok { CalmRestore(rec, Last(tried), rollback); }
      forall j | 0 <= j < |t.worlds| ensures KeptRunning(t.worlds[j], rec) {
        if j >= |tried.worlds| { assert t.worlds[j] == back.worlds[j - |tried.worlds|]; }
      }
    }
  }

  // ---- A switch as a transaction ----

  /** The new version with its validation, the old one kept beside it; or the old one, as it was. */
  predicate Settled(w: World, v: World, rec: Record) {
    && v.transaction.None?
    && ((v.current == w.current && RunsOnly(v, w.current))
        || (v.current == Some(rec.candidate) && rec.candidate in v.passed && (w.current.Some? ==> v.previous == w.current)))
  }

  /**
   A switch that is killed at any point, followed by any number of interrupted recoveries,
   leaves one of two situations. Either it is settled: the old configuration as it was, or the
   new one, validated. Or the record is there, and the next recovery that works brings back the
   old configuration, running exactly if it ran before the switch.
   */
  lemma SwitchIsTransaction(script: Script, w: World, rec: Record, weather: Weather, rollback: Weather, crashAt: nat,
                            attempts: seq<Attempt>, fair: Weather)
    requires Begun(w, rec) && Fair(fair)
    ensures Switch(script, w, rec, weather, rollback).worlds != []
    ensures var v := Attempts(Stopped(Switch(script, w, rec, weather, rollback), crashAt), attempts);
            if v.transaction.None? then Settled(w, v, rec)
            else
              && v.transaction == Some(rec)
              && var back := Restore(v, rec, fair);
                 back.ok && Last(back).transaction.None? && Last(back).current == w.current && Last(back).process == w.process
  {
    SwitchIsAtomic(script, rec, w, weather, rollback);
    var u := Stopped(Switch(script, w, rec, weather, rollback), crashAt);
    assert AllOrNothing(u, rec);
    if Held(u, rec) { RecoveryCompletes(u, rec, attempts, fair); }
  }

  /**
   If the server does not die by itself meanwhile, what is settled also keeps the running
   state: the version that is current then runs exactly if the old one ran before the switch.
   */
  lemma SettledKeepsRunning(script: Script, w: World, rec: Record, weather: Weather, rollback: Weather, crashAt: nat,
                            attempts: seq<Attempt>)
    requires Begun(w, rec) && Calm(weather) && Calm(rollback) && AllCalm(attempts)
    ensures Switch(script, w, rec, weather, rollback).worlds != []
    ensures var v := Attempts(Stopped(Switch(script, w, rec, weather, rollback), crashAt), attempts);
            v.transaction.None? ==> v.process == if w.process.Some? then v.current else None
  {
    SwitchIsAtomic(script, rec, w, weather, rollback);
    SwitchKeepsRunning(script, rec, w, weather, rollback);
    var u := Stopped(Switch(script, w, rec, weather, rollback), crashAt);
    assert AllOrNothing(u, rec) && KeptRunning(u, rec);
    AttemptsKeepRunning(u, rec, attempts);
  }

  // ---- A commit that is taken back ----

  /** Every step works but the last, which removes the record. */
  ghost predicate OnlyRemovalFails(weather: Weather) { forall i :: weather(i) == Luck(i != 7, false) }

  /**
   The record decides, not the commit. Where only the removal of the record fails, both scripts
   leave the new configuration current, validated, and reported as failed; and the next
   recovery that works takes it back.
   */
  lemma CommitTakenBack(script: Script, rec: Record, w: World, weather: Weather, rollback: Weather, fair: Weather)
    requires Begun(w, rec) && OnlyRemovalFails(weather) && Fair(fair)
    ensures var t := Switch(script, w, rec, weather, rollback);
            && t.worlds != [] && !t.ok
            && Last(t).current == Some(rec.candidate) && rec.candidate in Last(t).passed
            && Last(t).transaction == Some(rec)
            && var back := Restore(Last(t), rec, fair);
               back.ok && Last(back).current == w.current && Last(back).process == w.process && Last(back).transaction.None?
  {
    CalmSwitch(script, rec, w, weather);
    FailsAtRemoval(script, rec, w, weather, 0);
    var t := Switch(script, w, rec, weather, rollback);
    assert t == Run(w, SwitchOps(script, rec), weather, 0);
    assert Held(Last(t), rec);
    RecoveryCompletes(Last(t), rec, [], fair);
  }

  lemma {:induction false} FailsAtRemoval(script: Script, rec: Record, w: World, weather: Weather, i: nat)
    requires i <= 7 && CalmSwitchAt(script, rec, w, i) && OnlyRemovalFails(weather)
    ensures var t := Run(w, SwitchOps(script, rec), weather, i);
            !t.ok && i + Taken(t) == 8 && rec.candidate in Last(t).passed
    decreases 7 - i
  {
    var op := SwitchOps(script, rec)[i];
    var next := After(w, op, weather(i));
    CalmSwitchStep(script, rec, w, i, weather(i));
    if i == 7 {
      assert op == RemoveRecord && !Succeeds(w, op, weather(i));
    } else {
      FailsAtRemoval(script, rec, next, weather, i + 1);
    }
  }

  /** A failure behind the commit is never rolled back at once: the new configuration stays beside the record. */
  lemma LateFailureIsHeld(script: Script, rec: Record, w: World, weather: Weather, rollback: Weather)
    requires Begun(w, rec) && Calm(weather)
    ensures var tried := Run(w, SwitchOps(script, rec), weather, 0);
            !tried.ok && Taken(tried) - 1 > CommitStep(script) ==>
              && Switch(script, w, rec, weather, rollback) == tried
              && Last(tried).transaction == Some(rec) && Last(tried).current == Some(rec.candidate)
  {
    CalmSwitch(script, rec, w, weather);
  }
}
