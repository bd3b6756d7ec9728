/** What each command of the scripts achieves, and when it is refused, said of the worlds before and after it. */
module DeploymentCommands {
  import opened Wrappers
  import opened Deployment
  import opened DeploymentSafety
  import opened DeploymentTransaction

  /** A command, given in world w, that runs to its end. */
  function Commanded(script: Script, w: World, command: Command, weather: Weather, rollback: Weather): (t: Trace)
    ensures t.worlds != []
  {
    ExecuteHasWorlds(script, w, PlanOf(script, w, command), weather, rollback);
    Execute(script, w, PlanOf(script, w, command), weather, rollback)
  }

  predicate SameFiles(v: World, w: World) {
    v.current == w.current && v.previous == w.previous && v.transaction == w.transaction
  }

  /** The command did nothing, and said so. */
  predicate Refused(t: Trace, w: World) { !t.ok && t.worlds == [w] }

  // ---- Steps ----

  /** A process appears only by a start that finds none, and a configuration passes only while it runs. */
  lemma StepIsReal(w: World, op: Op, luck: Luck)
    ensures var v := After(w, op, luck);
            && (v.process.Some? && v.process != w.process ==> w.process.None? && op == Op.Start(v.process.value))
            && (forall c | c in v.passed && c !in w.passed :: op == Validate(c) && w.process == Some(c))
            && (op == Stop && Succeeds(w, op, luck) ==> v.process.None?)
            && (v.current != w.current ==> (v.current.Some? && op == WriteCurrent(v.current.value)) || op == RemoveCurrent)
            && (v.transaction != w.transaction ==> (v.transaction.Some? && op == WriteRecord(v.transaction.value)) || op == RemoveRecord)
            && (!Succeeds(w, op, luck) ==> SameFiles(v, w) && v.passed == w.passed)
  {
  }

  /** A row of two steps, step by step. */
  lemma TwoSteps(w: World, a: Op, b: Op, weather: Weather)
    ensures var v := After(w, a, weather(0));
            Run(w, [a, b], weather, 0) ==
              if !Succeeds(w, a, weather(0)) then Trace([w, v], false)
              else Trace([w, v, After(v, b, weather(1))], Succeeds(v, b, weather(1)))
  {
    var v := After(w, a, weather(0));
    var u := After(v, b, weather(1));
    assert Run(u, [a, b], weather, 2) == Trace([u], true);
    assert Run(v, [a, b], weather, 1) == Trace([v, u], Succeeds(v, b, weather(1)));
  }

  lemma OneStep(w: World, a: Op, weather: Weather)
    ensures Run(w, [a], weather, 0) == Trace([w, After(w, a, weather(0))], Succeeds(w, a, weather(0)))
  {
    var v := After(w, a, weather(0));
    assert Run(v, [a], weather, 1) == Trace([v], true);
  }

  // ---- Start and stop ----

  /** A start that ends well has validated the current version, and leaves it running unless it died; the files stay as they are. */
  lemma LaunchServes(script: Script, w: World, weather: Weather, rollback: Weather)
    requires Safe(w) && Commanded(script, w, Launch, weather, rollback).ok
    ensures var v := Last(Commanded(script, w, Launch, weather, rollback));
            && w.current.Some? && w.current.value in v.passed && SameFiles(v, w)
            && (Calm(weather) ==> v.process == w.current)
  {
    TwoSteps(w, Op.Start(w.current.value), Validate(w.current.value), weather);
  }

  /** In fair weather a start works exactly if there is a version to run, none runs, and no record is in the way; otherwise it is refused. */
  lemma LaunchExactly(script: Script, w: World, weather: Weather, rollback: Weather)
    requires Fair(weather)
    ensures var t := Commanded(script, w, Launch, weather, rollback);
            if w.current.Some? && w.process.None? && w.transaction.None? then t.ok else Refused(t, w)
  {
    if w.current.Some? { TwoSteps(w, Op.Start(w.current.value), Validate(w.current.value), weather); }
  }

  /** A start that fails is stopped again, and leaves the files as they are. */
  lemma FailedLaunchStops(script: Script, w: World, weather: Weather, rollback: Weather)
    requires var t := Commanded(script, w, Launch, weather, rollback); !t.ok && !Refused(t, w)
    requires rollback(0).works
    ensures var v := Last(Commanded(script, w, Launch, weather, rollback)); v.process.None? && SameFiles(v, w)
  {
    TwoSteps(w, Op.Start(w.current.value), Validate(w.current.value), weather);
    OneStep(Last(Run(w, [Op.Start(w.current.value), Validate(w.current.value)], weather, 0)), Stop, rollback);
  }

  /** A stop that ends well leaves no process, and changes nothing else. */
  lemma HaltStops(script: Script, w: World, weather: Weather, rollback: Weather)
    requires Commanded(script, w, Halt, weather, rollback).ok
    ensures Last(Commanded(script, w, Halt, weather, rollback)) == w.(process := None)
  {
    OneStep(w, Stop, weather);
  }

  /** In fair weather a stop works exactly if there is a deployment and no record. */
  lemma HaltExactly(script: Script, w: World, weather: Weather, rollback: Weather)
    requires Fair(weather)
    ensures var t := Commanded(script, w, Halt, weather, rollback);
            if w.current.Some? && w.transaction.None? then t.ok else Refused(t, w)
  {
    OneStep(w, Stop, weather);
  }

  // ---- Recovery ----

  /** A recovery that ends well puts back what the record holds. */
  lemma RecoverRestores(script: Script, w: World, weather: Weather, rollback: Weather)
    requires Safe(w) && Commanded(script, w, Recover, weather, rollback).ok
    ensures var v := Last(Commanded(script, w, Recover, weather, rollback));
            && w.transaction.Some?
            && var rec := w.transaction.value;
               && v.transaction.None? && v.current == rec.prior
               && (Calm(weather) ==> v.process == if rec.wasRunning then rec.prior else None)
  {
    var rec := w.transaction.value;
    RestoreKeeps(rec, w, weather);
    if Calm(weather) { CalmRestore(rec, w, weather); }
  }

  /** In fair weather a recovery works exactly if there is a record. */
  lemma RecoverExactly(script: Script, w: World, weather: Weather, rollback: Weather)
    requires Safe(w) && Fair(weather)
    ensures var t := Commanded(script, w, Recover, weather, rollback);
            if w.transaction.Some? then t.ok else Refused(t, w)
  {
    if w.transaction.Some? { FairRestore(w.transaction.value, w, weather); }
  }

  // ---- Install and update ----

  /** A setting that was given is taken; one that was not is that of the base. */
  predicate Given<T(==)>(setting: T, base: T, given: Option<T>) {
    setting == match given case Some(value) => value case None => base
  }

  /** Of five settings, each is taken from what was given, or from the base. */
  predicate SettingsTaken(s: Settings, base: Settings, o: Overrides) {
    && Given(s.listen, base.listen, o.listen) && Given(s.threads, base.threads, o.threads)
    && Given(s.interOp, base.interOp, o.interOp) && Given(s.concurrency, base.concurrency, o.concurrency)
    && Given(s.grace, base.grace, o.grace)
  }

  /** The settings from which an install starts: those in place, or the script's own. */
  function Base(w: World): Settings {
    if w.current.Some? then w.current.value.settings else Settings("0.0.0.0:8080", 2, 1, 1, 120)
  }

  /** Where every step works, a switch does end well. */
  lemma FairSwitch(script: Script, rec: Record, w: World, weather: Weather, rollback: Weather)
    requires Begun(w, rec) && Fair(weather)
    ensures Switch(script, w, rec, weather, rollback).ok
  {
    var o := Outline(Sunshine(), (v: World, i: nat) => CalmSwitchAt(script, rec, v, i), (v: World, i: nat) => false);
    var ops := SwitchOps(script, rec);
    forall v: World, i: nat, luck: Luck | i < |ops| && o.before(v, i) && o.allows(luck) ensures Leads(o, ops, v, i, luck) {
      CalmSwitchStep(script, rec, v, i, luck);
    }
    RunFollows(o, ops, w, weather, 0);
  }

  /** What a switch from w has put in place: a validated configuration, the old one beside it, running as before. */
  predicate Switched(w: World, v: World, c: Config, calm: bool) {
    && v.current == Some(c) && c in v.passed && v.transaction.None?
    && (w.current.Some? ==> v.previous == w.current)
    && (calm ==> v.process == if w.process.Some? then Some(c) else None)
  }

  lemma SwitchDoes(script: Script, rec: Record, w: World, weather: Weather, rollback: Weather)
    requires Begun(w, rec) && Switch(script, w, rec, weather, rollback).ok
    ensures Switched(w, Last(Switch(script, w, rec, weather, rollback)), rec.candidate, false)
    ensures Calm(weather) ==> Switched(w, Last(Switch(script, w, rec, weather, rollback)), rec.candidate, true)
  {
    SwitchIsAtomic(script, rec, w, weather, rollback);
    if Calm(weather) { CommittedKeepsRunning(script, rec, w, weather, rollback); }
  }

  /** An install under Windows that ends well: the release with the settings that were given, validated, running as before. */
  lemma InstallDoes(w: World, release: string, o: Overrides, weather: Weather, rollback: Weather)
    requires Safe(w) && Commanded(Windows, w, Install(Some(release), o), weather, rollback).ok
    ensures var v := Last(Commanded(Windows, w, Install(Some(release), o), weather, rollback));
            && v.current.Some? && v.current.value.release == release
            && SettingsTaken(v.current.value.settings, Base(w), o)
            && Switched(w, v, v.current.value, false)
            && (Calm(weather) ==> Switched(w, v, v.current.value, true))
  {
    PlanIsPlanned(Windows, w, Install(Some(release), o));
    SwitchDoes(Windows, PlanOf(Windows, w, Install(Some(release), o)).record, w, weather, rollback);
  }

  /** A first install under macOS that ends well: the same configuration, written and nothing else. */
  lemma InstallDoesMacOS(w: World, release: string, o: Overrides, weather: Weather, rollback: Weather)
    requires Commanded(MacOS, w, Install(Some(release), o), weather, rollback).ok
    ensures var v := Last(Commanded(MacOS, w, Install(Some(release), o), weather, rollback));
            && w.current.None? && v.current.Some? && v.current.value.release == release
            && SettingsTaken(v.current.value.settings, Base(w), o)
            && v.previous == w.previous && v.transaction.None? && v.passed == w.passed
  {
    OneStep(w, WriteCurrent(Config(release, Merge(DEFAULTS, o))), weather);
  }

  /** In fair weather an install works exactly if it was prepared and finds no record; under macOS also no deployment. */
  lemma InstallExactly(script: Script, w: World, release: Option<string>, o: Overrides, weather: Weather, rollback: Weather)
    requires Safe(w) && Fair(weather)
    ensures var t := Commanded(script, w, Install(release, o), weather, rollback);
            if release.Some? && w.transaction.None? && (script.MacOS? ==> w.current.None?) then t.ok else Refused(t, w)
  {
    var plan := PlanOf(script, w, Install(release, o));
    PlanIsPlanned(script, w, Install(release, o));
    if plan.Switching? { FairSwitch(script, plan.record, w, weather, rollback); }
    if plan.Placing? { OneStep(w, WriteCurrent(plan.config), weather); }
  }

  /** An update that ends well: the new release under the settings in place. */
  lemma UpdateDoes(script: Script, w: World, release: string, weather: Weather, rollback: Weather)
    requires Safe(w) && Commanded(script, w, Update(Some(release)), weather, rollback).ok
    ensures var v := Last(Commanded(script, w, Update(Some(release)), weather, rollback));
            && w.current.Some? && v.current == Some(Config(release, w.current.value.settings))
            && Switched(w, v, v.current.value, false)
            && (Calm(weather) ==> Switched(w, v, v.current.value, true))
  {
    PlanIsPlanned(script, w, Update(Some(release)));
    UpdateKeepsSettings(script, w, release);
    SwitchDoes(script, PlanOf(script, w, Update(Some(release))).record, w, weather, rollback);
  }

  /** In fair weather an update works exactly if it was prepared, and finds a deployment and no record. */
  lemma UpdateExactly(script: Script, w: World, release: Option<string>, weather: Weather, rollback: Weather)
    requires Safe(w) && Fair(weather)
    ensures var t := Commanded(script, w, Update(release), weather, rollback);
            if release.Some? && w.current.Some? && w.transaction.None? then t.ok else Refused(t, w)
  {
    var plan := PlanOf(script, w, Update(release));
    PlanIsPlanned(script, w, Update(release));
    if plan.Switching? { FairSwitch(script, plan.record, w, weather, rollback); }
  }

  // ---- Failures ----

  /**
   Which failures are rolled back at once. Under Windows these are all between the record and the
   commit, under macOS those to start or to validate the candidate; there a rollback in which
   every step works leaves the old version as it was. Any later failure leaves the record.
   */
  lemma FailureRolledBack(script: Script, rec: Record, w: World, weather: Weather, rollback: Weather)
    requires Begun(w, rec) && Calm(weather) && Fair(rollback)
    ensures var n, t := Taken(Run(w, SwitchOps(script, rec), weather, 0)), Switch(script, w, rec, weather, rollback);
            && t.worlds != []
            && (!t.ok && n >= 2 ==>
                  if (if script.Windows? then n <= 6 else 3 <= n <= 4)
                  then Last(t).transaction.None? && Last(t).current == w.current && Last(t).process == w.process
                  else Last(t).transaction == Some(rec))
            && (!t.ok && n < 2 ==> SameFiles(Last(t), w) && Last(t).process == w.process)
  {
    CalmSwitch(script, rec, w, weather);
    var tried := Run(w, SwitchOps(script, rec), weather, 0);
    if !tried.ok && Taken(tried) >= 2 {
      assert Held(Last(tried), rec);
      RestoreKeeps(rec, Last(tried), rollback);
      FairRestore(rec, Last(tried), rollback);
      CalmRestore(rec, Last(tried), rollback);
    } else if !tried.ok {
      FirstStepFails(script, rec, w, weather);
    }
  }

  /** A record that cannot be written leaves everything as it was. */
  lemma FirstStepFails(script: Script, rec: Record, w: World, weather: Weather)
    requires var t := Run(w, SwitchOps(script, rec), weather, 0); !t.ok && Taken(t) < 2
    ensures SameFiles(Last(Run(w, SwitchOps(script, rec), weather, 0)), w)
  {
  }
}
