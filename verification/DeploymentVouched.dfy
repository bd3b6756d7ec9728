/**
 Which configurations become current without having passed validation: exactly those that the
 macOS script installs first.
 */
module DeploymentVouched {
  import opened Wrappers
  import opened Deployment
  import opened DeploymentSafety

  predicate AllKnow(worlds: seq<World>, known: set<Config>) {
    forall j | 0 <= j < |worlds| :: known <= worlds[j].passed
  }

  lemma {:induction false} PassedGrows(w: World, ops: seq<Op>, weather: Weather, i: nat, known: set<Config>)
    requires i <= |ops| && known <= w.passed
    ensures AllKnow(Run(w, ops, weather, i).worlds, known)
    decreases |ops| - i
  {
    if i == |ops| {
    } else {
      var next := After(w, ops[i], weather(i));
      assert known <= next.passed;
      if Succeeds(w, ops[i], weather(i)) { PassedGrows(next, ops, weather, i + 1, known); }
    }
  }

  lemma JoinKnows(a: Trace, b: Trace, known: set<Config>)
    requires AllKnow(a.worlds, known) && AllKnow(b.worlds, known)
    ensures AllKnow(Join(a, b).worlds, known)
  {
  }

  /** What passed validation once is not forgotten. */
  lemma ExecutePassedGrows(script: Script, w: World, plan: Plan, weather: Weather, rollback: Weather)
    ensures AllKnow(Execute(script, w, plan, weather, rollback).worlds, w.passed)
  {
    var known := w.passed;
    match plan
    case Refuse =>
    case Halting => PassedGrows(w, [Stop], weather, 0, known);
    case Placing(c) => PassedGrows(w, [WriteCurrent(c)], weather, 0, known);
    case Restoring(rec) => PassedGrows(w, RestoreOps(rec), weather, 0, known);
    case Launching(c) =>
      var tried := Run(w, [Start(c), Validate(c)], weather, 0);
      PassedGrows(w, [Start(c), Validate(c)], weather, 0, known);
      PassedGrows(Last(tried), [Stop], rollback, 0, known);
      JoinKnows(tried, Run(Last(tried), [Stop], rollback, 0), known);
    case Switching(rec) =>
      var tried := Run(w, SwitchOps(script, rec), weather, 0);
      PassedGrows(w, SwitchOps(script, rec), weather, 0, known);
      PassedGrows(Last(tried), RestoreOps(rec), rollback, 0, known);
      JoinKnows(tried, Restore(Last(tried), rec, rollback), known);
  }

  predicate Passed(w: World, c: Option<Config>) { c.Some? ==> c.value in w.passed }

  /** What is current, and what a recovery would bring back, was validated at some time. */
  predicate Vouched(w: World) {
    Passed(w, w.current) && (w.transaction.Some? ==> Passed(w, w.transaction.value.prior))
  }

  predicate AllVouched(worlds: seq<World>) { forall j | 0 <= j < |worlds| :: Vouched(worlds[j]) }

  lemma AllOrNothingIsVouched(w: World, rec: Record)
    requires AllOrNothing(w, rec) && Passed(w, rec.prior)
    ensures Vouched(w)
  {
  }

  /** The command would write a configuration as current that has never been validated. */
  predicate Overclaims(script: Script, w: World, command: Command) {
    var plan := PlanOf(script, w, command);
    plan.Placing? && plan.config !in w.passed
  }

  /** Only an install on macOS that finds no configuration does that. */
  lemma OverclaimIsFirstInstall(script: Script, w: World, command: Command)
    ensures Overclaims(script, w, command) <==>
      && script.MacOS? && command.Install? && command.release.Some?
      && w.transaction.None? && w.current.None?
      && Config(command.release.value, Merge(DEFAULTS, command.overrides)) !in w.passed
  {
  }

  /** A placed configuration is written, or not; nothing else happens. */
  lemma PlacingTrace(w: World, c: Config, weather: Weather)
    ensures Run(w, [WriteCurrent(c)], weather, 0) == Trace([w, After(w, WriteCurrent(c), weather(0))], weather(0).works)
  {
    var next := After(w, WriteCurrent(c), weather(0));
    assert Run(next, [WriteCurrent(c)], weather, 1) == Trace([next], true);
  }

  lemma CommandIsVouched(script: Script, w: World, command: Command, weather: Weather, rollback: Weather)
    requires Safe(w) && Vouched(w) && !PlanOf(script, w, command).Placing?
    ensures AllVouched(Execute(script, w, PlanOf(script, w, command), weather, rollback).worlds)
  {
    PlanIsPlanned(script, w, command);
    var plan := PlanOf(script, w, command);
    var t := Execute(script, w, plan, weather, rollback);
    ExecutePassedGrows(script, w, plan, weather, rollback);
    match plan
    case Switching(rec) =>
      SwitchIsAtomic(script, rec, w, weather, rollback);
      forall j | 0 <= j < |t.worlds| ensures Vouched(t.worlds[j]) { AllOrNothingIsVouched(t.worlds[j], rec); }
    case Restoring(rec) =>
      RestoreKeeps(rec, w, weather);
      forall j | 0 <= j < |t.worlds| ensures Vouched(t.worlds[j]) { AllOrNothingIsVouched(t.worlds[j], rec); }
    case Launching(c) => LaunchIsQuiet(script, w, c, weather, rollback);
    case Halting => HarmlessRun(w, [Stop], weather, 0, w.current);
    case Refuse =>
  }

  /**
   In given weather, a command leaves the vouched worlds if and only if it writes a configuration
   that has never been validated and the write works.
   */
  lemma CommandVouchedExactly(script: Script, w: World, command: Command, weather: Weather, rollback: Weather)
    requires Safe(w) && Vouched(w)
    ensures AllVouched(Execute(script, w, PlanOf(script, w, command), weather, rollback).worlds)
      <==> !(Overclaims(script, w, command) && weather(0).works)
  {
    var plan := PlanOf(script, w, command);
    if plan.Placing? {
      PlacingTrace(w, plan.config, weather);
      var t := Execute(script, w, plan, weather, rollback);
      assert t.worlds[0] == w && t.worlds[1] == After(w, WriteCurrent(plan.config), weather(0));
    } else {
      CommandIsVouched(script, w, command, weather, rollback);
    }
  }

  ghost predicate AlwaysVouched(script: Script, w: World, command: Command) {
    forall weather: Weather, rollback: Weather ::
      AllVouched(Execute(script, w, PlanOf(script, w, command), weather, rollback).worlds)
  }

  /** Whatever the weather, a command keeps to vouched worlds if and only if it does not overclaim. */
  lemma AlwaysVouchedExactly(script: Script, w: World, command: Command)
    requires Safe(w) && Vouched(w)
    ensures AlwaysVouched(script, w, command) <==> !Overclaims(script, w, command)
  {
    var sunny: Weather := _ => Luck(true, false);
    CommandVouchedExactly(script, w, command, sunny, sunny);
    if !Overclaims(script, w, command) {
      forall weather: Weather, rollback: Weather
        ensures AllVouched(Execute(script, w, PlanOf(script, w, command), weather, rollback).worlds)
      {
        CommandVouchedExactly(script, w, command, weather, rollback);
      }
    }
  }

  /** The episode writes a configuration that has never been validated. */
  predicate Breaks(script: Script, w: World, e: Episode) {
    e.Invoked? && Overclaims(script, w, e.command) && e.weather(0).works && e.crashAt > 0
  }

  lemma NextVouchedExactly(script: Script, w: World, e: Episode)
    requires Safe(w) && Vouched(w)
    ensures Vouched(Next(script, w, e)) <==> !Breaks(script, w, e)
  {
    match e
    case Died =>
    case Invoked(command, weather, rollback, crashAt) =>
      var plan := PlanOf(script, w, command);
      if plan.Placing? {
        PlacingTrace(w, plan.config, weather);
      } else {
        CommandIsVouched(script, w, command, weather, rollback);
        ExecuteHasWorlds(script, w, plan, weather, rollback);
      }
  }

  predicate VouchedAt(script: Script, w: World, episodes: seq<Episode>, k: nat)
    requires k <= |episodes|
  {
    Vouched(History(script, w, episodes, k))
  }

  predicate BreaksAt(script: Script, w: World, episodes: seq<Episode>, k: nat)
    requires k < |episodes|
  {
    Breaks(script, History(script, w, episodes, k), episodes[k])
  }

  lemma EpisodeVouchedExactly(script: Script, w: World, episodes: seq<Episode>, k: nat)
    requires Safe(w) && k < |episodes| && VouchedAt(script, w, episodes, k)
    ensures VouchedAt(script, w, episodes, k + 1) <==> !BreaksAt(script, w, episodes, k)
  {
    HistoryIsSafe(script, w, episodes, k);
    NextVouchedExactly(script, History(script, w, episodes, k), episodes[k]);
  }

  /**
   Every current configuration passed validation, all through a history, if and only if no
   episode of it writes one that did not.
   */
  lemma {:induction false} HistoryVouchedExactly(script: Script, w: World, episodes: seq<Episode>, n: nat)
    requires Safe(w) && Vouched(w) && n <= |episodes|
    ensures (forall k | 0 <= k <= n :: VouchedAt(script, w, episodes, k))
      <==> forall k | 0 <= k < n :: !BreaksAt(script, w, episodes, k)
  {
    if n == 0 {
      assert VouchedAt(script, w, episodes, 0);
    } else {
      HistoryVouchedExactly(script, w, episodes, n - 1);
      if VouchedAt(script, w, episodes, n - 1) {
        EpisodeVouchedExactly(script, w, episodes, n - 1);
      }
    }
  }

  /** What a caller can check beforehand is enough: give no command that overclaims where it is given. */
  lemma HistoryIsVouched(script: Script, w: World, episodes: seq<Episode>, n: nat)
    requires Safe(w) && Vouched(w) && n <= |episodes|
    requires forall k | 0 <= k < n && episodes[k].Invoked? :: !Overclaims(script, History(script, w, episodes, k), episodes[k].command)
    ensures Vouched(History(script, w, episodes, n))
  {
    HistoryVouchedExactly(script, w, episodes, n);
    assert VouchedAt(script, w, episodes, n);
  }

  /** The Windows script never overclaims, so that under it no condition is left. */
  lemma WindowsIsVouched(w: World, episodes: seq<Episode>, n: nat)
    requires Safe(w) && Vouched(w) && n <= |episodes|
    ensures Vouched(History(Windows, w, episodes, n))
  {
    HistoryIsVouched(Windows, w, episodes, n);
  }

  /** The macOS script's first install writes the configuration without validating it. */
  lemma FirstInstallOnMacOS(release: string, weather: Weather, rollback: Weather)
    requires weather(0) == Luck(true, false)
    ensures var w := Next(MacOS, EMPTY, Invoked(Install(Some(release), NO_OVERRIDES), weather, rollback, 1));
            w.current == Some(Config(release, DEFAULTS)) && !Vouched(w)
  {
    PlacingTrace(EMPTY, Config(release, Merge(DEFAULTS, NO_OVERRIDES)), weather);
  }
}
