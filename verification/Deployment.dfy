/**
 The deployment scripts, scripts/laya.ps1 and its twin scripts/laya-macos.sh: a record on disk
 surrounds stopping, starting, validating and committing. A command is a row of small steps;
 each may fail, the server may die after any of them, and the script itself may be killed
 between any two.
 */
module Deployment {
  import opened Wrappers

  datatype Settings = Settings(listen: string, threads: nat, interOp: nat, concurrency: nat, grace: nat)

  datatype Config = Config(release: string, settings: Settings)

  /** transaction.json, or the transaction directory. */
  datatype Record = Record(prior: Option<Config>, candidate: Config, wasRunning: bool)

  /** The disk, the managed process, and, as history, the configurations that passed validation. */
  datatype World = World(
    current: Option<Config>, previous: Option<Config>, transaction: Option<Record>,
    process: Option<Config>, passed: set<Config>)

  datatype Op =
    | Skip
    | WriteRecord(record: Record) | RemoveRecord
    | WriteCurrent(config: Config) | RemoveCurrent | WritePrevious(config: Config)
    | Stop
    | Start(config: Config)
    | Validate(config: Config)

  /** Whether a step works, as far as the surroundings are concerned, and whether the server dies after it. */
  datatype Luck = Luck(works: bool, dies: bool)

  type Weather = nat -> Luck

  /** Nothing is deployed. */
  const EMPTY := World(None, None, None, None, {})

  /** Every world that a command passes through, and whether it came to its end. */
  datatype Trace = Trace(worlds: seq<World>, ok: bool)

  // ---- One step ----

  predicate Succeeds(w: World, op: Op, luck: Luck) {
    match op
    case Skip => true
    case Start(_) => luck.works && w.process.None?
    case Validate(c) => luck.works && w.process == Some(c)
    case _ => luck.works
  }

  function Effect(w: World, op: Op): World {
    match op
    case Skip => w
    case WriteRecord(record) => w.(transaction := Some(record))
    case RemoveRecord => w.(transaction := None)
    case WriteCurrent(c) => w.(current := Some(c))
    case RemoveCurrent => w.(current := None)
    case WritePrevious(c) => w.(previous := Some(c))
    case Stop => w.(process := None)
    case Start(c) => w.(process := Some(c))
    case Validate(c) => w.(passed := w.passed + {c})
  }

  function After(w: World, op: Op, luck: Luck): World {
    var done := if Succeeds(w, op, luck) then Effect(w, op) else w;
    if luck.dies then done.(process := None) else done
  }

  /** The steps from i on, up to the first that fails. */
  function Run(w: World, ops: seq<Op>, weather: Weather, i: nat): (t: Trace)
    requires i <= |ops|
    ensures t.worlds != [] && t.worlds[0] == w
    decreases |ops| - i
  {
    if i == |ops| then Trace([w], true)
    else
      var next := After(w, ops[i], weather(i));
      if !Succeeds(w, ops[i], weather(i)) then Trace([w, next], false)
      else
        var rest := Run(next, ops, weather, i + 1);
        Trace([w] + rest.worlds, rest.ok)
  }

  function Last(t: Trace): World
    requires t.worlds != []
  {
    t.worlds[|t.worlds| - 1]
  }

  /** How many steps of `Run` were taken, the failed one included. */
  function Taken(t: Trace): nat
    requires t.worlds != []
  {
    |t.worlds| - 1
  }

  // ---- The programs ----

  datatype Script = Windows | MacOS

  /** Stop what runs; bring the old version back up and validate it; commit it; drop the record. */
  function RestoreOps(rec: Record): (ops: seq<Op>)
    ensures |ops| == 6
  {
    match rec.prior
    case Some(c) => [Stop, Start(c), Validate(c), if rec.wasRunning then Skip else Stop, WriteCurrent(c), RemoveRecord]
    case None => [Stop, Skip, Skip, Skip, RemoveCurrent, RemoveRecord]
  }

  /** The steps of a switch. The macOS script stops unconditionally, and keeps the old version before it commits. */
  function SwitchOps(script: Script, rec: Record): (ops: seq<Op>)
    ensures |ops| == 8
  {
    var keep := if rec.prior.Some? then WritePrevious(rec.prior.value) else Skip;
    var halt := if rec.wasRunning then Skip else Stop;
    match script
    case Windows =>
      [WriteRecord(rec), if rec.wasRunning then Stop else Skip, Start(rec.candidate), Validate(rec.candidate),
       halt, WriteCurrent(rec.candidate), keep, RemoveRecord]
    case MacOS =>
      [WriteRecord(rec), Stop, Start(rec.candidate), Validate(rec.candidate),
       halt, keep, WriteCurrent(rec.candidate), RemoveRecord]
  }

  /** A failure of step i starts the rollback at once; any other failure leaves the record for a later recovery. */
  predicate RollsBack(script: Script, i: nat) {
    match script
    case Windows => 1 <= i <= 5
    case MacOS => 2 <= i <= 3
  }

  function Join(a: Trace, b: Trace): Trace { Trace(a.worlds + b.worlds, b.ok) }

  function Restore(w: World, rec: Record, weather: Weather): Trace { Run(w, RestoreOps(rec), weather, 0) }

  /** `Switch-Candidate`, or `update` from the record on. It ends well only if the new version is committed. */
  function Switch(script: Script, w: World, rec: Record, weather: Weather, rollback: Weather): Trace {
    var tried := Run(w, SwitchOps(script, rec), weather, 0);
    if tried.ok || |tried.worlds| < 2 || !RollsBack(script, Taken(tried) - 1) then tried
    else Join(tried, Restore(Last(tried), rec, rollback)).(ok := false)
  }

  // ---- The commands ----

  datatype Overrides = Overrides(
    listen: Option<string>, threads: Option<nat>, interOp: Option<nat>, concurrency: Option<nat>, grace: Option<nat>)

  /** The release is None if the candidate could not be prepared. */
  datatype Command = Install(release: Option<string>, overrides: Overrides) | Update(release: Option<string>) | Recover | Launch | Halt

  datatype Plan = Refuse | Switching(record: Record) | Restoring(record: Record) | Launching(config: Config) | Halting | Placing(config: Config)

  function Or<T>(o: Option<T>, default: T): T { if o.Some? then o.value else default }

  function Merge(s: Settings, o: Overrides): Settings {
    Settings(Or(o.listen, s.listen), Or(o.threads, s.threads), Or(o.interOp, s.interOp),
             Or(o.concurrency, s.concurrency), Or(o.grace, s.grace))
  }

  const DEFAULTS := Settings("0.0.0.0:8080", 2, 1, 1, 120)

  function SwitchPlan(w: World, release: string, o: Overrides): Plan {
    var settings := if w.current.Some? then w.current.value.settings else DEFAULTS;
    Switching(Record(w.current, Config(release, Merge(settings, o)), w.process.Some?))
  }

  const NO_OVERRIDES := Overrides(None, None, None, None, None)

  /** The main dispatch: what a command does about the world it finds. */
  function PlanOf(script: Script, w: World, command: Command): Plan {
    if w.transaction.Some? then
      if command.Recover? then Restoring(w.transaction.value) else Refuse
    else
      match command
      case Recover => Refuse
      case Install(release, o) =>
        if release.None? then Refuse
        else if script.MacOS? then
          if w.current.Some? then Refuse else Placing(Config(release.value, Merge(DEFAULTS, o)))
        else if w.process.Some? && w.current.None? then Refuse
        else SwitchPlan(w, release.value, o)
      case Update(release) =>
        if w.current.None? || release.None? then Refuse else SwitchPlan(w, release.value, NO_OVERRIDES)
      case Launch =>
        if w.current.None? || w.process.Some? then Refuse else Launching(w.current.value)
      case Halt => if w.current.None? then Refuse else Halting
  }

  function Execute(script: Script, w: World, plan: Plan, weather: Weather, rollback: Weather): Trace {
    match plan
    case Refuse => Trace([w], false)
    case Switching(rec) => Switch(script, w, rec, weather, rollback)
    case Restoring(rec) => Restore(w, rec, weather)
    case Halting => Run(w, [Stop], weather, 0)
    case Placing(c) => Run(w, [WriteCurrent(c)], weather, 0)
    case Launching(c) =>
      var tried := Run(w, [Start(c), Validate(c)], weather, 0);
      if tried.ok then tried else Join(tried, Run(Last(tried), [Stop], rollback, 0)).(ok := false)
  }
}
