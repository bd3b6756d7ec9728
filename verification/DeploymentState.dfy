/**
 The deployment scripts as they run: files and the managed process are changed in place, one
 step after the other. Each script function is proved against its trace in `Deployment`.
 */
module DeploymentState {
  import opened Wrappers
  import opened Deployment
  import opened DeploymentSafety

  /** The first n steps worked, and passed through `worlds`. */
  ghost predicate Ran(worlds: seq<World>, ops: seq<Op>, weather: Weather, n: nat) {
    && n <= |ops| && |worlds| == n + 1
    && forall j | 0 <= j < n ::
         Succeeds(worlds[j], ops[j], weather(j)) && worlds[j + 1] == After(worlds[j], ops[j], weather(j))
  }

  lemma RanFurther(worlds: seq<World>, next: World, ops: seq<Op>, weather: Weather, n: nat)
    requires Ran(worlds, ops, weather, n) && n < |ops|
    requires Succeeds(worlds[n], ops[n], weather(n)) && next == After(worlds[n], ops[n], weather(n))
    ensures Ran(worlds + [next], ops, weather, n + 1)
  {
  }

  lemma {:induction false} RanIsRun(worlds: seq<World>, ops: seq<Op>, weather: Weather, n: nat, i: nat)
    requires i <= n && Ran(worlds, ops, weather, n)
    ensures var t := Run(worlds[i], ops, weather, i);
            && (n == |ops| ==> t == Trace(worlds[i..], true))
            && (n < |ops| && !Succeeds(worlds[n], ops[n], weather(n)) ==>
                  t == Trace(worlds[i..] + [After(worlds[n], ops[n], weather(n))], false))
    decreases n - i
  {
    if i < n {
      RanIsRun(worlds, ops, weather, n, i + 1);
      assert worlds[i..] == [worlds[i]] + worlds[i + 1..];
      assert Succeeds(worlds[i], ops[i], weather(i)) && worlds[i + 1] == After(worlds[i], ops[i], weather(i));
      if n < |ops| {
        var failed := [After(worlds[n], ops[n], weather(n))];
        assert worlds[i..] + failed == [worlds[i]] + (worlds[i + 1..] + failed);
      }
    } else {
      assert worlds[n..] == [worlds[n]];
    }
  }

  /** What a row of steps has done so far: it is under way, or it has failed or finished as the run says. */
  ghost predicate Doing(worlds: seq<World>, ok: bool, ops: seq<Op>, weather: Weather, n: nat) {
    && worlds != []
    && if ok then Ran(worlds, ops, weather, n) else Trace(worlds, false) == Run(worlds[0], ops, weather, 0)
  }

  lemma Finished(worlds: seq<World>, ok: bool, ops: seq<Op>, weather: Weather)
    requires Doing(worlds, ok, ops, weather, |ops|)
    ensures Trace(worlds, ok) == Run(worlds[0], ops, weather, 0)
  {
    if ok {
      RanIsRun(worlds, ops, weather, |ops|, 0);
      assert worlds[0..] == worlds;
    }
  }

  /** One more step, which worked or not. */
  lemma Noted(worlds: seq<World>, ok: bool, next: World, ops: seq<Op>, weather: Weather, n: nat) returns (noted: seq<World>)
    requires Ran(worlds, ops, weather, n) && n < |ops|
    requires ok == Succeeds(worlds[n], ops[n], weather(n)) && next == After(worlds[n], ops[n], weather(n))
    ensures noted == worlds + [next] && Doing(noted, ok, ops, weather, n + 1)
  {
    noted := worlds + [next];
    if ok {
      RanFurther(worlds, next, ops, weather, n);
    } else {
      RanIsRun(worlds, ops, weather, n, 0);
      assert worlds[0..] == worlds;
    }
  }

  class Host {
    var current: Option<Config>
    var previous: Option<Config>
    var transaction: Option<Record>
    var process: Option<Config>
    ghost var passed: set<Config>

    ghost function View(): World
      reads this
    {
      World(current, previous, transaction, process, passed)
    }

    constructor ()
      ensures View() == EMPTY
    {
      current, previous, transaction, process, passed := None, None, None, None, {};
    }

    /** The server may die between two steps. */
    method Pass(luck: Luck)
      modifies this`process
      ensures View() == old(View()).(process := if luck.dies then None else old(process))
    {
      if luck.dies { process := None; }
    }

    method StopOwned(luck: Luck) returns (ok: bool)
      modifies this
      ensures ok == Succeeds(old(View()), Stop, luck) && View() == After(old(View()), Stop, luck)
    {
      ok := luck.works;
      if ok { process := None; }
      Pass(luck);
    }

    method StartOwned(c: Config, luck: Luck) returns (ok: bool)
      modifies this
      ensures ok == Succeeds(old(View()), Start(c), luck) && View() == After(old(View()), Start(c), luck)
    {
      ok := process.None? && luck.works;
      if ok { process := Some(c); }
      Pass(luck);
    }

    method ValidateRunning(c: Config, luck: Luck) returns (ok: bool)
      modifies this
      ensures ok == Succeeds(old(View()), Validate(c), luck) && View() == After(old(View()), Validate(c), luck)
    {
      ok := luck.works && process == Some(c);
      if ok { passed := passed + {c}; }
      Pass(luck);
    }

    /** Replace or remove one of the files. */
    method Store(op: Op, luck: Luck) returns (ok: bool)
      requires !op.Stop? && !op.Start? && !op.Validate?
      modifies this
      ensures ok == Succeeds(old(View()), op, luck) && View() == After(old(View()), op, luck)
    {
      ok := luck.works || op.Skip?;
      if ok {
        match op {
          case WriteRecord(record) => transaction := Some(record);
          case RemoveRecord => transaction := None;
          case WriteCurrent(c) => current := Some(c);
          case RemoveCurrent => current := None;
          case WritePrevious(c) => previous := Some(c);
          case Skip =>
        }
      }
      Pass(luck);
    }

    /** `Restore-Transaction` and `restore_transaction` */
    method RestoreTransaction(rec: Record, weather: Weather) returns (ok: bool, ghost worlds: seq<World>)
      modifies this
      ensures Trace(worlds, ok) == Restore(old(View()), rec, weather)
      ensures worlds != [] && View() == worlds[|worlds| - 1]
    {
      ghost var ops := RestoreOps(rec);
      worlds := [View()];
      ok := StopOwned(weather(0));
      worlds := Noted(worlds, ok, View(), ops, weather, 0);
      if !ok { return; }
      match rec.prior {
        case Some(c) => ok, worlds := BringBack(c, rec, weather, worlds);
        case None => ok, worlds := Forget(rec, weather, worlds);
      }
      if !ok { return; }
      ok := Store(RemoveRecord, weather(5));
      worlds := Noted(worlds, ok, View(), ops, weather, 5);
      Finished(worlds, ok, ops, weather);
    }

    /** The old version is started, validated, stopped again if it was not running, and committed. */
    method BringBack(c: Config, rec: Record, weather: Weather, ghost before: seq<World>) returns (ok: bool, ghost worlds: seq<World>)
      requires rec.prior == Some(c) && Ran(before, RestoreOps(rec), weather, 1) && View() == before[1]
      modifies this
      ensures Doing(worlds, ok, RestoreOps(rec), weather, 5)
      ensures View() == worlds[|worlds| - 1] && worlds[0] == before[0]
    {
      ghost var ops := RestoreOps(rec);
      ok := StartOwned(c, weather(1));
      worlds := Noted(before, ok, View(), ops, weather, 1);
      if !ok { return; }
      ok := ValidateRunning(c, weather(2));
      worlds := Noted(worlds, ok, View(), ops, weather, 2);
      if !ok { return; }
      if rec.wasRunning { Pass(weather(3)); } else { ok := StopOwned(weather(3)); }
      worlds := Noted(worlds, ok, View(), ops, weather, 3);
      if !ok { return; }
      ok := Store(WriteCurrent(c), weather(4));
      worlds := Noted(worlds, ok, View(), ops, weather, 4);
    }

    /** There was no old version: none is current again. */
    method Forget(rec: Record, weather: Weather, ghost before: seq<World>) returns (ok: bool, ghost worlds: seq<World>)
      requires rec.prior.None? && Ran(before, RestoreOps(rec), weather, 1) && View() == before[1]
      modifies this
      ensures Doing(worlds, ok, RestoreOps(rec), weather, 5)
      ensures View() == worlds[|worlds| - 1] && worlds[0] == before[0]
    {
      ghost var ops := RestoreOps(rec);
      Pass(weather(1));
      worlds := Noted(before, true, View(), ops, weather, 1);
      Pass(weather(2));
      worlds := Noted(worlds, true, View(), ops, weather, 2);
      Pass(weather(3));
      worlds := Noted(worlds, true, View(), ops, weather, 3);
      ok := Store(RemoveCurrent, weather(4));
      worlds := Noted(worlds, ok, View(), ops, weather, 4);
    }

    /** Start and validate the candidate; both scripts roll back if this fails. */
    method TryCandidate(script: Script, rec: Record, weather: Weather, ghost before: seq<World>) returns (ok: bool, ghost worlds: seq<World>)
      requires Ran(before, SwitchOps(script, rec), weather, 2) && View() == before[2]
      modifies this
      ensures Doing(worlds, ok, SwitchOps(script, rec), weather, 4)
      ensures View() == worlds[|worlds| - 1] && worlds[0] == before[0] && (!ok ==> 4 <= |worlds| <= 5)
    {
      ghost var ops := SwitchOps(script, rec);
      ok := StartOwned(rec.candidate, weather(2));
      worlds := Noted(before, ok, View(), ops, weather, 2);
      if !ok { return; }
      ok := ValidateRunning(rec.candidate, weather(3));
      worlds := Noted(worlds, ok, View(), ops, weather, 3);
    }

    /** The try block of `Switch-Candidate`. */
    method TryWindows(rec: Record, weather: Weather, ghost before: seq<World>) returns (ok: bool, ghost worlds: seq<World>)
      requires Ran(before, SwitchOps(Windows, rec), weather, 1) && View() == before[1]
      modifies this
      ensures Doing(worlds, ok, SwitchOps(Windows, rec), weather, 6)
      ensures View() == worlds[|worlds| - 1] && worlds[0] == before[0] && (!ok ==> 3 <= |worlds| <= 7)
    {
      ghost var ops := SwitchOps(Windows, rec);
      ok := true;
      if rec.wasRunning { ok := StopOwned(weather(1)); } else { Pass(weather(1)); }
      worlds := Noted(before, ok, View(), ops, weather, 1);
      if !ok { return; }
      ok, worlds := TryCandidate(Windows, rec, weather, worlds);
      if !ok { return; }
      if rec.wasRunning { Pass(weather(4)); } else { ok := StopOwned(weather(4)); }
      worlds := Noted(worlds, ok, View(), ops, weather, 4);
      if !ok { return; }
      ok := Store(WriteCurrent(rec.candidate), weather(5));
      worlds := Noted(worlds, ok, View(), ops, weather, 5);
    }

    /** Keep the old version as `previous`, if there was one. */
    method KeepPrevious(rec: Record, luck: Luck) returns (ok: bool)
      modifies this
      ensures var op := if rec.prior.Some? then WritePrevious(rec.prior.value) else Skip;
              ok == Succeeds(old(View()), op, luck) && View() == After(old(View()), op, luck)
    {
      ok := true;
      match rec.prior {
        case Some(c) => ok := Store(WritePrevious(c), luck);
        case None => Pass(luck);
      }
    }

    /** The catch block: go back to the old version. The switch has failed either way. */
    method RollBack(script: Script, rec: Record, weather: Weather, rollback: Weather, ghost tried: seq<World>)
      returns (ghost worlds: seq<World>)
      requires tried != [] && View() == tried[|tried| - 1]
      requires Doing(tried, false, SwitchOps(script, rec), weather, 0) && |tried| >= 2 && RollsBack(script, |tried| - 2)
      modifies this
      ensures Trace(worlds, false) == Switch(script, tried[0], rec, weather, rollback)
      ensures worlds != [] && View() == worlds[|worlds| - 1]
    {
      var back, more := RestoreTransaction(rec, rollback);
      worlds := tried + more;
    }

    /** `Switch-Candidate` */
    method SwitchCandidate(rec: Record, weather: Weather, rollback: Weather) returns (ok: bool, ghost worlds: seq<World>)
      modifies this
      ensures Trace(worlds, ok) == Switch(Windows, old(View()), rec, weather, rollback)
      ensures worlds != [] && View() == worlds[|worlds| - 1]
    {
      ghost var ops := SwitchOps(Windows, rec);
      worlds := [View()];
      ok := Store(WriteRecord(rec), weather(0));
      worlds := Noted(worlds, ok, View(), ops, weather, 0);
      if !ok { return; }
      ok, worlds := TryWindows(rec, weather, worlds);
      if !ok {
        worlds := RollBack(Windows, rec, weather, rollback, worlds);
        return;
      }
      ok := KeepPrevious(rec, weather(6));
      worlds := Noted(worlds, ok, View(), ops, weather, 6);
      if !ok { return; }
      ok := Store(RemoveRecord, weather(7));
      worlds := Noted(worlds, ok, View(), ops, weather, 7);
      Finished(worlds, ok, ops, weather);
    }

    /**
     `update`, from the moment at which the record is written. Where `launch` or `validate_running`
     ends the script with `die`, there is no rollback: that is the switch killed before its
     rollback begins, and `ExitIsKill` says that it leaves the same world.
     */
    method UpdateMacOS(rec: Record, weather: Weather, rollback: Weather) returns (ok: bool, ghost worlds: seq<World>)
      modifies this
      ensures Trace(worlds, ok) == Switch(MacOS, old(View()), rec, weather, rollback)
      ensures worlds != [] && View() == worlds[|worlds| - 1]
    {
      ghost var ops := SwitchOps(MacOS, rec);
      worlds := [View()];
      ok := Store(WriteRecord(rec), weather(0));
      worlds := Noted(worlds, ok, View(), ops, weather, 0);
      if !ok { return; }
      ok := StopOwned(weather(1));
      worlds := Noted(worlds, ok, View(), ops, weather, 1);
      if !ok { return; }
      ok, worlds := TryCandidate(MacOS, rec, weather, worlds);
      if !ok {
        worlds := RollBack(MacOS, rec, weather, rollback, worlds);
        return;
      }
      ok, worlds := CommitMacOS(rec, weather, worlds);
      Finished(worlds, ok, ops, weather);
    }

    /** The end of `update`: no rollback any more, a failure leaves the record. */
    method CommitMacOS(rec: Record, weather: Weather, ghost before: seq<World>) returns (ok: bool, ghost worlds: seq<World>)
      requires Ran(before, SwitchOps(MacOS, rec), weather, 4) && View() == before[4]
      modifies this
      ensures Doing(worlds, ok, SwitchOps(MacOS, rec), weather, 8)
      ensures View() == worlds[|worlds| - 1] && worlds[0] == before[0] && (!ok ==> 6 <= |worlds| <= 9)
    {
      ghost var ops := SwitchOps(MacOS, rec);
      ok := true;
      if rec.wasRunning { Pass(weather(4)); } else { ok := StopOwned(weather(4)); }
      worlds := Noted(before, ok, View(), ops, weather, 4);
      if !ok { return; }
      ok := KeepPrevious(rec, weather(5));
      worlds := Noted(worlds, ok, View(), ops, weather, 5);
      if !ok { return; }
      ok := Store(WriteCurrent(rec.candidate), weather(6));
      worlds := Noted(worlds, ok, View(), ops, weather, 6);
      if !ok { return; }
      ok := Store(RemoveRecord, weather(7));
      worlds := Noted(worlds, ok, View(), ops, weather, 7);
    }

    /** `Start`: what fails to validate is stopped again. */
    method Launch(c: Config, weather: Weather, rollback: Weather) returns (ok: bool, ghost worlds: seq<World>)
      modifies this
      ensures Trace(worlds, ok) == Execute(Windows, old(View()), Launching(c), weather, rollback)
      ensures worlds != [] && View() == worlds[|worlds| - 1]
    {
      ghost var ops := [Op.Start(c), Validate(c)];
      worlds := [View()];
      ok := StartOwned(c, weather(0));
      worlds := Noted(worlds, ok, View(), ops, weather, 0);
      if ok {
        ok := ValidateRunning(c, weather(1));
        worlds := Noted(worlds, ok, View(), ops, weather, 1);
      }
      if ok {
        Finished(worlds, ok, ops, weather);
      } else {
        var stopped, more := Single(Stop, rollback);
        worlds := worlds + more;
      }
    }

    /** A command of one step. */
    method Single(op: Op, weather: Weather) returns (ok: bool, ghost worlds: seq<World>)
      requires op.Stop? || op.WriteCurrent?
      modifies this
      ensures Trace(worlds, ok) == Run(old(View()), [op], weather, 0)
      ensures worlds != [] && View() == worlds[|worlds| - 1]
    {
      worlds := [View()];
      if op.Stop? { ok := StopOwned(weather(0)); } else { ok := Store(op, weather(0)); }
      worlds := Noted(worlds, ok, View(), [op], weather, 0);
      Finished(worlds, ok, [op], weather);
    }

    /** One invocation of a script that runs to its end: the dispatch, and what follows from it. */
    method Invoke(script: Script, command: Command, weather: Weather, rollback: Weather)
      returns (ok: bool, ghost worlds: seq<World>)
      modifies this
      ensures Trace(worlds, ok) == Execute(script, old(View()), PlanOf(script, old(View()), command), weather, rollback)
      ensures worlds != [] && View() == worlds[|worlds| - 1]
    {
      var plan := PlanOf(script, World(current, previous, transaction, process, {}), command);
      match plan {
        case Refuse => ok, worlds := false, [View()];
        case Restoring(rec) => ok, worlds := RestoreTransaction(rec, weather);
        case Launching(c) => ok, worlds := Launch(c, weather, rollback);
        case Halting => ok, worlds := Single(Stop, weather);
        case Placing(c) => ok, worlds := Single(WriteCurrent(c), weather);
        case Switching(rec) =>
          if script.Windows? {
            ok, worlds := SwitchCandidate(rec, weather, rollback);
          } else {
            ok, worlds := UpdateMacOS(rec, weather, rollback);
          }
      }
    }
  }
}
