/**
 The lifetime of the service (src/server.rs): wait for a stop notification, for the HTTP
 server to end or for the scheduler to stop; close admission; drain; stop HTTP. The
 scheduler runs underneath, one event at a time, in any interleaving.
 */
module Shutdown {
  import opened Wrappers
  import opened Admission
  import opened AdmissionSafety
  import opened AdmissionSteps
  import opened AdmissionRuns

  datatype Verdict = Success | TaskError | IoError | Stopped

  /** The branch of `select!` that ended the wait. */
  datatype Cause = Notice | NoticeFailed | HttpEnded(ok: bool) | RunEnded

  datatype Stage = Selecting | Closing | Draining | Over(verdict: Verdict) | Exited

  /** `driving`: the current `run` future has been polled. `owner` and `http` are the two
      results that `join!` waits for. */
  datatype Service = Service(
    sched: State, stage: Stage, driving: bool, result: Verdict, httpDone: bool,
    owner: Option<Verdict>, http: Option<Verdict>, stopSent: bool)

  datatype Act =
    | Work(e: Event)
    | Select(cause: Cause)
    | CloseAdmission
    | OwnerDone
    | HttpDone(ok: bool)
    | JoinBoth
    | GraceExpired

  function Begin(c: Config): Service {
    Service(Init(c), Selecting, false, Success, false, None, None, false)
  }

  function VerdictOf(cause: Cause): Verdict {
    match cause
    case Notice => Success
    case NoticeFailed => IoError
    case HttpEnded(ok) => if ok then Stopped else IoError
    case RunEnded => Stopped
  }

  predicate Allowed(c: Config, v: Service, a: Act) {
    match a
    case Work(e) =>
      !v.stage.Over? && !v.stage.Exited? && LineInRange(v.sched) && Enabled(c, v.sched, e)
      && !e.RunCancel?
      && (e.RunStart? ==> !v.driving && !v.stage.Closing?)
      && (e.RunPoll? || e.RunFail? ==> v.driving && !v.stage.Closing?)
    case Select(cause) =>
      v.stage.Selecting?
      && (if cause.RunEnded? then v.driving && v.sched.run.phase.Returned?
          else !v.driving || v.sched.run.phase.Asleep?)
    case CloseAdmission => v.stage.Closing?
    case OwnerDone => v.stage.Draining? && v.driving && v.owner.None? && v.sched.run.phase.Returned?
    case HttpDone(_) => v.stage.Draining? && !v.httpDone && v.http.None?
    case JoinBoth => v.stage.Draining? && v.owner.Some? && (v.httpDone || v.http.Some?)
    case GraceExpired => v.stage.Draining?
  }

  /** `first.and(second)` */
  function And(first: Verdict, second: Verdict): Verdict {
    if first.Success? then second else first
  }

  function RunVerdict(p: Driver): Verdict
    requires p.Returned?
  {
    if p.error.Some? then TaskError else Success
  }

  function After(c: Config, v: Service, a: Act): Service
    requires Allowed(c, v, a)
  {
    match a
    case Work(e) => v.(sched := Next(c, v.sched, e), driving := v.driving || e.RunStart?)
    case Select(cause) =>
      v.(stage := Closing, driving := false, httpDone := cause.HttpEnded?,
         // the branch that lost drops its `run` future
         sched := if v.sched.run.phase.Asleep? then v.sched.(run := v.sched.run.(phase := Absent)) else v.sched,
         result := if cause.RunEnded? then And(RunVerdict(v.sched.run.phase), Stopped) else VerdictOf(cause))
    case CloseAdmission => v.(stage := Draining, sched := Shut(v.sched))
    case OwnerDone => v.(owner := Some(RunVerdict(v.sched.run.phase)), stopSent := true)
    case HttpDone(ok) => v.(http := Some(if ok then Success else IoError))
    case JoinBoth =>
      var h := if v.http.Some? then v.http.value else Success;
      v.(stage := Over(And(And(v.owner.value, h), v.result)))
    case GraceExpired => v.(stage := Exited)
  }

  ghost predicate Clean(s: State) {
    && !s.gate.accepting && s.gate.tasks == {}
    && forall i | 0 <= i < |s.jobs| :: s.jobs[i].task.NoTask? || (s.jobs[i].task.Joined? && s.jobs[i].task.exit.Normal?)
  }

  ghost predicate ServiceInv(c: Config, v: Service) {
    var p := v.sched.run.phase;
    && Inv(c, v.sched)
    && (v.stage.Selecting? ==>
          v.owner.None? && !v.stopSent
          && (if v.driving then !p.Absent? && (v.sched.run.told ==> p.Returned? && p.error.Some?)
              else p.Absent? && !v.sched.run.told))
    && (v.stage.Closing? ==> v.owner.None? && !v.stopSent && !v.driving && !p.Asleep?)
    && ((v.stage.Closing? || v.stage.Draining?) && v.result.Success? && v.sched.run.told ==>
          v.driving && p.Returned? && p.error.Some?)
    && (v.stage.Draining? ==> !v.sched.gate.accepting)
    && (v.stopSent <==> v.owner.Some?)
    && (v.owner.Some? && v.stage.Draining? ==> v.driving && p.Returned? && v.owner.value == RunVerdict(p))
    && (v.stopSent ==> !v.sched.gate.accepting && v.sched.gate.tasks == {})
    && (v.stage == Over(Success) ==> v.stopSent && Clean(v.sched))
  }

  lemma BeginInv(c: Config)
    ensures ServiceInv(c, Begin(c))
  {
  }

  /** What an event of the scheduler can do to its driver. */
  lemma DriverStep(c: Config, s: State, e: Event)
    requires Inv(c, s) && Enabled(c, s, e)
    ensures var s' := Next(c, s, e);
            && (!e.RunStart? && !e.RunPoll? && !e.RunFail? && !e.RunCancel? ==>
                  s'.run.phase == s.run.phase && s'.run.told == s.run.told)
            && (e.RunPoll? ==> !s.run.phase.Returned? && !s'.run.phase.Absent?)
            && (e.RunPoll? && s'.run.told ==> s.run.told || (s'.run.phase.Returned? && s'.run.phase.error.Some?))
            && (e.RunFail? || e.RunStart? ==> s'.run.phase.Polling? && s'.run.told == s.run.told)
  {
    if e.Poll? {
      assert JobOk(c, s.gate.accepting, s.now, e.i in s.slots.line, s.jobs[e.i]);
      PollJob(c, s, e.i, e.t1, e.t2, e.t3, e.fired);
    } else if !e.RunStart? && !e.RunPoll? && !e.RunFail? && !e.RunCancel? {
      DriverUntouched(c, s, e);
    }
  }

  lemma DriverUntouched(c: Config, s: State, e: Event)
    requires Inv(c, s) && Enabled(c, s, e) && !e.Poll? && !e.RunStart? && !e.RunPoll? && !e.RunFail? && !e.RunCancel?
    ensures Next(c, s, e).run.phase == s.run.phase && Next(c, s, e).run.told == s.run.told
  {
  }

  lemma WorkInv(c: Config, v: Service, e: Event)
    requires ServiceInv(c, v) && Allowed(c, v, Work(e))
    ensures ServiceInv(c, After(c, v, Work(e)))
  {
    StepInv(c, v.sched, e);
    DriverStep(c, v.sched, e);
    StepLater(c, v.sched, e);
  }

  lemma ServiceStep(c: Config, v: Service, a: Act)
    requires ServiceInv(c, v) && Allowed(c, v, a)
    ensures ServiceInv(c, After(c, v, a))
  {
    match a
    case Work(e) => WorkInv(c, v, e);
    case Select(cause) => if v.sched.run.phase.Asleep? { StepInv(c, v.sched, RunCancel); }
    case CloseAdmission => ShutInv(c, v.sched);
    case OwnerDone =>
    case HttpDone(_) =>
    case JoinBoth =>
    case GraceExpired =>
  }

  ghost predicate IsServiceRun(c: Config, vs: seq<Service>, acts: seq<Act>) {
    && |vs| == |acts| + 1 && vs[0] == Begin(c)
    && forall k | 0 <= k < |acts| :: Allowed(c, vs[k], acts[k]) && vs[k + 1] == After(c, vs[k], acts[k])
  }

  lemma {:induction false} ServiceRunInv(c: Config, vs: seq<Service>, acts: seq<Act>, k: nat)
    requires IsServiceRun(c, vs, acts) && k < |vs|
    ensures ServiceInv(c, vs[k])
  {
    if k == 0 {
      BeginInv(c);
    } else {
      ServiceRunInv(c, vs, acts, k - 1);
      ServiceStep(c, vs[k - 1], acts[k - 1]);
    }
  }

  /** `serve` returns Ok only after admission has closed and every task that was ever
      spawned has been joined without a panic, in this or an earlier `run`; and HTTP is
      told to stop only after admission has closed and nothing is left to join. */
  lemma ServeOkMeansClean(c: Config, vs: seq<Service>, acts: seq<Act>, k: nat)
    requires IsServiceRun(c, vs, acts) && k < |vs|
    ensures vs[k].stage == Over(Success) ==> vs[k].stopSent && Clean(vs[k].sched)
    ensures vs[k].stopSent ==> !vs[k].sched.gate.accepting && vs[k].sched.gate.tasks == {}
  {
    ServiceRunInv(c, vs, acts, k);
  }

  /** The branch that `select!` took decides the result for good. */
  lemma {:induction false} ResultKept(c: Config, vs: seq<Service>, acts: seq<Act>, n: nat, k: nat)
    requires IsServiceRun(c, vs, acts) && n < k < |vs| && acts[n].Select?
    ensures !vs[k].stage.Selecting? && vs[k].result == vs[n + 1].result && vs[k].httpDone == vs[n + 1].httpDone
  {
    if n + 1 == k {
    } else {
      ResultKept(c, vs, acts, n, k - 1);
    }
  }

  /** When both halves of the drain have ended, `serve` returns Ok if and only if a stop
      notification ended the wait, no task panicked, and HTTP did not fail. */
  lemma ServeOkExactly(c: Config, vs: seq<Service>, acts: seq<Act>, n: nat, k: nat)
    requires IsServiceRun(c, vs, acts) && n < k < |acts| && acts[n].Select? && acts[k].JoinBoth?
    ensures vs[k + 1].stage == Over(Success)
            <==> acts[n].cause.Notice? && (forall i | 0 <= i < |vs[k].sched.jobs| :: !IsPanic(vs[k].sched, i))
                 && vs[k].http != Some(IoError)
  {
    ResultKept(c, vs, acts, n, k);
    ServiceRunInv(c, vs, acts, n);
    ServiceRunInv(c, vs, acts, k);
    ServiceRunInv(c, vs, acts, k + 1);
    HttpVerdicts(c, vs, acts, k);
  }

  /**
   Which failure `serve` returns. A panic that the drain's `run` returned comes first, then a
   failure of HTTP; then what ended the wait: a failed notification or HTTP, or a `run` that
   ended by itself, with its panic if it returned one.
   */
  lemma ServeVerdict(c: Config, vs: seq<Service>, acts: seq<Act>, n: nat, k: nat)
    requires IsServiceRun(c, vs, acts) && n < k < |acts| && acts[n].Select? && acts[k].JoinBoth?
    ensures vs[k].sched.run.phase.Returned? && vs[k + 1].stage.Over?
    ensures var cause, before := acts[n].cause, vs[n].sched.run.phase;
            vs[k + 1].stage.verdict ==
              if vs[k].sched.run.phase.error.Some? then TaskError
              else if vs[k].http == Some(IoError) then IoError
              else if cause == Notice then Success
              else if cause == NoticeFailed || cause == HttpEnded(false) then IoError
              else if cause == RunEnded && before.Returned? && before.error.Some? then TaskError
              else Stopped
  {
    ResultKept(c, vs, acts, n, k);
    ServiceRunInv(c, vs, acts, n);
    ServiceRunInv(c, vs, acts, k);
    HttpVerdicts(c, vs, acts, k);
  }

  lemma {:induction false} HttpVerdicts(c: Config, vs: seq<Service>, acts: seq<Act>, k: nat)
    requires IsServiceRun(c, vs, acts) && k < |vs|
    ensures vs[k].http in {None, Some(Success), Some(IoError)}
  {
    if k == 0 {
    } else {
      HttpVerdicts(c, vs, acts, k - 1);
    }
  }
}
