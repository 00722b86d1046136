/** One run of a Gradle benchmark scenario: pre-flight check, daemon stop, connection,
    warm-up builds, a profiler session around the measured builds, the final daemon
    check and the guaranteed cleanup. */
module Scenario {
  import opened Optional
  import opened Events
  import opened Execution

  /** The settings and scenario definition the orchestration reads. */
  datatype Config = Config(
    profile: bool,
    warmUpCount: int,
    buildCount: int,
    reuseDaemon: bool,
    shouldCleanUpDaemon: bool,
    cleanupDoesSomething: bool,
    cleanupThenStopDaemonDoesSomething: bool)

  /** What the collaborators do: the daemon pid each build reports, and the one
      collaborator call, if any, that fails. */
  datatype Oracle = Oracle(pidOf: (Phase, nat) -> Pid, failAt: Option<Site>)

  /** The before-build action is chosen once per run. */
  function BeforeBuild(cfg: Config): BeforeBuildAction
  {
    if cfg.shouldCleanUpDaemon then CleanupThenStopDaemon(cfg.cleanupThenStopDaemonDoesSomething)
    else CleanupAction(cfg.cleanupDoesSomething)
  }

  predicate DoesSomething(cfg: Config)
  {
    BeforeBuild(cfg).doesSomething
  }

  /** The cleanup step before a build: run through the base invoker, only when the action does something. */
  function BeforeBuildSteps(cfg: Config, phase: Phase, iteration: nat): seq<Action>
  {
    if DoesSomething(cfg)
    then [Call(CleanupAt(phase, iteration), RunCleanup(phase, iteration, BaseInvoker, BeforeBuild(cfg)))]
    else []
  }

  /** The baseline after a warm-up build reporting `pid`: set by the first build only. */
  function NextBaseline(baseline: Option<Pid>, pid: Pid): Option<Pid>
  {
    if baseline.None? then Some(pid) else baseline
  }

  /** Warm-up iteration `i`: cleanup, the build through the base invoker, its result
      handed on, then the daemon check against the baseline once there is one. */
  function WarmUpIteration(cfg: Config, o: Oracle, i: nat, baseline: Option<Pid>): seq<Action>
  {
    var pid := o.pidOf(WarmUp, i);
    BeforeBuildSteps(cfg, WarmUp, i)
    + [Call(BuildAt(WarmUp, i), RunBuild(WarmUp, i, BaseInvoker)), Note(Deliver(WarmUp, i))]
    + (if baseline.None? then [] else [VerifyPid(baseline, pid, cfg.reuseDaemon)])
  }

  datatype WarmUpPlan = WarmUpPlan(actions: seq<Action>, baseline: Option<Pid>, last: Option<Pid>)

  /** Warm-up iterations `i` to `warmUpCount`, with the baseline and last result so far. */
  function WarmUpLoop(cfg: Config, o: Oracle, i: nat, baseline: Option<Pid>, last: Option<Pid>): (r: WarmUpPlan)
    ensures r.baseline == (if baseline.Some? || i > cfg.warmUpCount then baseline else Some(o.pidOf(WarmUp, i)))
    ensures r.last == (if i <= cfg.warmUpCount then Some(o.pidOf(WarmUp, cfg.warmUpCount)) else last)
    decreases cfg.warmUpCount + 1 - i
  {
    if i > cfg.warmUpCount then WarmUpPlan([], baseline, last)
    else
      var pid := o.pidOf(WarmUp, i);
      var rest := WarmUpLoop(cfg, o, i + 1, NextBaseline(baseline, pid), Some(pid));
      WarmUpPlan(WarmUpIteration(cfg, o, i, baseline) + rest.actions, rest.baseline, rest.last)
  }

  /** The warm-up loop from `i` holds iteration `i` with the baseline so far, then every
      later iteration with the baseline that iteration `i` leaves, and nothing else. */
  lemma {:induction false} WarmUpLoopActions(cfg: Config, o: Oracle, i: nat, baseline: Option<Pid>, last: Option<Pid>, a: Action)
    requires 1 <= i
    ensures a in WarmUpLoop(cfg, o, i, baseline, last).actions <==>
      || (i <= cfg.warmUpCount && a in WarmUpIteration(cfg, o, i, baseline))
      || (exists j :: i < j <= cfg.warmUpCount &&
            a in WarmUpIteration(cfg, o, j, NextBaseline(baseline, o.pidOf(WarmUp, i))))
    decreases cfg.warmUpCount + 1 - i
  {
    if i <= cfg.warmUpCount {
      var pid := o.pidOf(WarmUp, i);
      var next := NextBaseline(baseline, pid);
      WarmUpLoopActions(cfg, o, i + 1, next, Some(pid), a);
      assert NextBaseline(next, o.pidOf(WarmUp, i + 1)) == next;
      if exists j :: i < j <= cfg.warmUpCount && a in WarmUpIteration(cfg, o, j, next) {
        var j :| i < j <= cfg.warmUpCount && a in WarmUpIteration(cfg, o, j, next);
        if j > i + 1 {
          assert i + 1 < j <= cfg.warmUpCount && a in WarmUpIteration(cfg, o, j, NextBaseline(next, o.pidOf(WarmUp, i + 1)));
        }
      }
    }
  }

  /** The recording start before measured build `i`: for the first build, or after a
      cleanup that does something. */
  function RecordingStartSteps(cfg: Config, i: nat): seq<Action>
  {
    if i == 1 || DoesSomething(cfg) then [Call(StartRecordingAt(i), StartRecording(i))] else []
  }

  /** The recording stop after measured build `i`, with its pid: after the last build, or
      before a cleanup that does something. */
  function RecordingStopSteps(cfg: Config, o: Oracle, i: nat): seq<Action>
  {
    if i == cfg.buildCount || DoesSomething(cfg) then [Call(StopRecordingAt(i), StopRecording(i, o.pidOf(Measure, i)))] else []
  }

  /** Measured iteration `i`: cleanup through the base invoker, the recording start, the
      build through the instrumented invoker, the recording stop, and the result handed on. */
  function MeasureIteration(cfg: Config, o: Oracle, i: nat): seq<Action>
  {
    BeforeBuildSteps(cfg, Measure, i)
    + RecordingStartSteps(cfg, i)
    + [Call(BuildAt(Measure, i), RunBuild(Measure, i, InstrumentedInvoker))]
    + RecordingStopSteps(cfg, o, i)
    + [Note(Deliver(Measure, i))]
  }

  datatype MeasurePlan = MeasurePlan(actions: seq<Action>, last: Option<Pid>)

  /** Measured iterations `i` to `buildCount`, with the last result so far. */
  function MeasureLoop(cfg: Config, o: Oracle, i: nat, last: Option<Pid>): (r: MeasurePlan)
    ensures r.last == (if i <= cfg.buildCount then Some(o.pidOf(Measure, cfg.buildCount)) else last)
    decreases cfg.buildCount + 1 - i
  {
    if i > cfg.buildCount then MeasurePlan([], last)
    else
      var rest := MeasureLoop(cfg, o, i + 1, Some(o.pidOf(Measure, i)));
      MeasurePlan(MeasureIteration(cfg, o, i) + rest.actions, rest.last)
  }

  /** The measured iteration an action of a measured iteration belongs to. */
  function MeasureStepOf(a: Action): nat
  {
    match a
    case Call(CleanupAt(_, i), _) => i
    case Call(BuildAt(_, i), _) => i
    case Call(StartRecordingAt(i), _) => i
    case Call(StopRecordingAt(i), _) => i
    case Note(Deliver(_, i)) => i
    case _ => 0
  }

  /** Every action of measured iteration `j` names `j`. */
  lemma MeasureIterationStep(cfg: Config, o: Oracle, j: nat, a: Action)
    requires a in MeasureIteration(cfg, o, j)
    ensures MeasureStepOf(a) == j
  {
  }

  /** The measured loop from `i` holds an action exactly when the iteration the action
      names is one of `i` to `buildCount` and holds it. */
  lemma {:induction false} MeasureLoopMembers(cfg: Config, o: Oracle, i: nat, last: Option<Pid>, a: Action)
    ensures a in MeasureLoop(cfg, o, i, last).actions <==>
      i <= MeasureStepOf(a) <= cfg.buildCount && a in MeasureIteration(cfg, o, MeasureStepOf(a))
    decreases cfg.buildCount + 1 - i
  {
    if i <= cfg.buildCount {
      var rest := MeasureLoop(cfg, o, i + 1, Some(o.pidOf(Measure, i))).actions;
      MeasureLoopMembers(cfg, o, i + 1, Some(o.pidOf(Measure, i)), a);
      InConcat(a, MeasureIteration(cfg, o, i), rest);
      if a in MeasureIteration(cfg, o, i) {
        MeasureIterationStep(cfg, o, i, a);
      }
    }
  }

  /** The measured loop from `i` holds exactly the iterations `i` to `buildCount`. */
  lemma MeasureLoopActions(cfg: Config, o: Oracle, i: nat, last: Option<Pid>, a: Action)
    ensures a in MeasureLoop(cfg, o, i, last).actions <==> exists j :: i <= j <= cfg.buildCount && a in MeasureIteration(cfg, o, j)
  {
    MeasureLoopMembers(cfg, o, i, last, a);
    if exists j :: i <= j <= cfg.buildCount && a in MeasureIteration(cfg, o, j) {
      var j :| i <= j <= cfg.buildCount && a in MeasureIteration(cfg, o, j);
      MeasureIterationStep(cfg, o, j, a);
    }
  }

  function WarmUpPhase(cfg: Config, o: Oracle): WarmUpPlan
  {
    WarmUpLoop(cfg, o, 1, None, None)
  }

  function MeasurePhase(cfg: Config, o: Oracle): MeasurePlan
  {
    MeasureLoop(cfg, o, 1, WarmUpPhase(cfg, o).last)
  }

  /** Everything up to the start of the profiler session. */
  function Prologue(cfg: Config, o: Oracle): seq<Action>
  {
    var warmUp := WarmUpPhase(cfg, o);
    [Call(BeforeScenarioAt, BeforeScenario)]
    + warmUp.actions
    + [Note(CreateController(warmUp.baseline)), Call(StartSessionAt, StartSession)]
  }

  /** The final daemon check, made only when there is a last result. */
  function FinalPidCheck(baseline: Option<Pid>, last: Option<Pid>, reuseDaemon: bool): seq<Action>
  {
    match last
    case None => []
    case Some(pid) => [VerifyPid(baseline, pid, reuseDaemon)]
  }

  /** The session stop and the checks on the last result. */
  function SessionEnd(baseline: Option<Pid>, last: Option<Pid>, reuseDaemon: bool): seq<Action>
  {
    [Call(StopSessionAt, StopSession), RequireResult(last.Some?)] + FinalPidCheck(baseline, last, reuseDaemon)
  }

  /** Everything after the measured builds: session stop, the checks on the last result, client close. */
  function Epilogue(cfg: Config, o: Oracle): seq<Action>
  {
    SessionEnd(WarmUpPhase(cfg, o).baseline, MeasurePhase(cfg, o).last, cfg.reuseDaemon)
    + [Call(CloseClientAt, CloseClient)]
  }

  /** The guarded part of the run, between opening the connection and the cleanup. */
  function BodyPlan(cfg: Config, o: Oracle): seq<Action>
  {
    Prologue(cfg, o) + MeasurePhase(cfg, o).actions + Epilogue(cfg, o)
  }

  const OpeningPlan: seq<Action> :=
    [Call(InitialStopAt, StopDaemon), Call(ConnectAt, OpenConnection)]

  const CleanupPlan: seq<Action> :=
    [Call(AfterScenarioAt, AfterScenario), Call(CloseConnectionAt, CloseConnection), Call(FinalStopAt, StopDaemon)]

  const CleanupEvents: seq<Event> := [AfterScenario, CloseConnection, StopDaemon]

  /** The profiling pre-flight check fails: profiling was asked for with a warm-up count of exactly zero. */
  predicate PreflightFails(cfg: Config)
  {
    cfg.profile && cfg.warmUpCount == 0
  }

  /** A connection gets opened: the pre-flight check passes and neither the first daemon stop nor the connect fails. */
  predicate ConnectionOpened(cfg: Config, o: Oracle)
  {
    !PreflightFails(cfg) && o.failAt != Some(InitialStopAt) && o.failAt != Some(ConnectAt)
  }

  predicate CleanupSite(s: Site)
  {
    s == AfterScenarioAt || s == CloseConnectionAt || s == FinalStopAt
  }

  datatype RunResult = RunResult(trace: seq<Event>, outcome: Outcome)

  /** One scenario run. A failing cleanup call skips the cleanup calls after it and
      its failure replaces any failure of the guarded part. */
  function Run(cfg: Config, o: Oracle): (r: RunResult)
    ensures PreflightFails(cfg) ==> r.trace == [] && r.outcome == Failed(ProfilingWithoutWarmUp)
    ensures !PreflightFails(cfg) ==> |r.trace| >= 1 && r.trace[0] == StopDaemon
    ensures !PreflightFails(cfg) && o.failAt != Some(InitialStopAt) ==> |r.trace| >= 2 && r.trace[1] == OpenConnection
    ensures !ConnectionOpened(cfg, o) ==> r.outcome.Failed? && CloseConnection !in r.trace
  {
    if PreflightFails(cfg) then RunResult([], Failed(ProfilingWithoutWarmUp))
    else
      var opening := Execute(OpeningPlan, o.failAt);
      if opening.failure.Some? then RunResult(opening.events, Failed(opening.failure.value))
      else
        var body := Execute(BodyPlan(cfg, o), o.failAt);
        var cleanup := Execute(CleanupPlan, o.failAt);
        RunResult(
          opening.events + body.events + cleanup.events,
          if cleanup.failure.Some? then Failed(cleanup.failure.value)
          else if body.failure.Some? then Failed(body.failure.value)
          else Success)
  }

  /** Once the connection is open, the cleanup calls run in order whatever the guarded
      part does, and the run's outcome is the guarded part's, unless a cleanup call fails. */
  lemma CleanupAlwaysRuns(cfg: Config, o: Oracle)
    requires ConnectionOpened(cfg, o) && !(o.failAt.Some? && CleanupSite(o.failAt.value))
    ensures |Run(cfg, o).trace| >= 5
    ensures Run(cfg, o).trace[|Run(cfg, o).trace| - 3..] == CleanupEvents
    ensures Run(cfg, o).outcome ==
      (var body := Execute(BodyPlan(cfg, o), o.failAt);
       if body.failure.Some? then Failed(body.failure.value) else Success)
  {
    var opening := Execute(OpeningPlan, o.failAt);
    var body := Execute(BodyPlan(cfg, o), o.failAt);
    var cleanup := Execute(CleanupPlan, o.failAt);
    assert OpeningPlan[1..][1..] == [];
    assert CleanupPlan[1..][1..][1..] == [];
    assert cleanup.events == CleanupEvents;
    var trace := opening.events + body.events + cleanup.events;
    assert Run(cfg, o).trace == trace;
    assert trace[|trace| - 3..] == CleanupEvents;
  }
}
