/** Properties of a scenario run: which invoker each step uses, the baseline pid,
    which daemon checks are made, and when a run succeeds. */
module Properties {
  import opened Optional
  import opened Events
  import opened Execution
  import opened Scenario
  import opened Origins

  /** The invoker and the action of one cleanup or build event of a run. */
  lemma EventInvoker(cfg: Config, o: Oracle, e: Event)
    requires e in Run(cfg, o).trace
    ensures e.RunCleanup? ==> e.invoker == BaseInvoker && e.action == BeforeBuild(cfg) && DoesSomething(cfg)
    ensures e.RunBuild? ==> (e.invoker == BaseInvoker <==> e.phase == WarmUp)
  {
    RunEvents(cfg, o, e);
    if BodyEvent(cfg, o, e) {
      BodyEventInvoker(cfg, o, e);
    }
  }

  lemma BodyEventInvoker(cfg: Config, o: Oracle, e: Event)
    requires BodyEvent(cfg, o, e)
    ensures e.RunCleanup? ==> e.invoker == BaseInvoker && e.action == BeforeBuild(cfg) && DoesSomething(cfg)
    ensures e.RunBuild? ==> (e.invoker == BaseInvoker <==> e.phase == WarmUp)
  {
  }

  /** Cleanup steps run only when the before-build action does something, run that
      action, and always go through the base invoker; warm-up builds go through the
      base invoker and measured builds through the instrumented one. */
  lemma InvokerRule(cfg: Config, o: Oracle)
    ensures forall e :: e in Run(cfg, o).trace && e.RunCleanup? ==>
      e.invoker == BaseInvoker && e.action == BeforeBuild(cfg) && DoesSomething(cfg)
    ensures forall e :: e in Run(cfg, o).trace && e.RunBuild? ==>
      (e.invoker == BaseInvoker <==> e.phase == WarmUp)
  {
    forall e | e in Run(cfg, o).trace {
      EventInvoker(cfg, o, e);
    }
  }

  /** The baseline one controller creation or daemon check of a run uses. */
  lemma EventBaseline(cfg: Config, o: Oracle, e: Event)
    requires e in Run(cfg, o).trace
    ensures e.CreateController? ==> e.baseline == FirstWarmUpPid(cfg, o)
    ensures e.PidChecked? ==> e.expected == FirstWarmUpPid(cfg, o)
  {
    RunEvents(cfg, o, e);
    if BodyEvent(cfg, o, e) {
      BodyEventBaseline(cfg, o, e);
    }
  }

  lemma BodyEventBaseline(cfg: Config, o: Oracle, e: Event)
    requires BodyEvent(cfg, o, e)
    ensures e.CreateController? ==> e.baseline == FirstWarmUpPid(cfg, o)
    ensures e.PidChecked? ==> e.expected == FirstWarmUpPid(cfg, o)
  {
  }

  /** The controller is created with the first warm-up build's pid (none without
      warm-up), and every daemon check compares against that same baseline. */
  lemma BaselineRule(cfg: Config, o: Oracle)
    ensures forall b :: CreateController(b) in Run(cfg, o).trace ==> b == FirstWarmUpPid(cfg, o)
    ensures forall e :: e in Run(cfg, o).trace && e.PidChecked? ==> e.expected == FirstWarmUpPid(cfg, o)
  {
    forall e | e in Run(cfg, o).trace {
      EventBaseline(cfg, o, e);
    }
  }

  /** The daemon policy: reuse demands the same pid, no reuse a different one. */
  predicate DaemonAccepted(cfg: Config, expected: Pid, actual: Pid)
  {
    cfg.reuseDaemon <==> expected == actual
  }

  /** Every warm-up build from the second up to, but not including, build `n` passes its
      daemon check against the first one. */
  predicate WarmUpChecksPassBefore(cfg: Config, o: Oracle, n: int)
  {
    forall j :: 2 <= j < n ==> DaemonAccepted(cfg, o.pidOf(WarmUp, 1), o.pidOf(WarmUp, j))
  }

  /** Every warm-up build after the first passes its daemon check against the first one. */
  predicate WarmUpChecksPass(cfg: Config, o: Oracle)
  {
    WarmUpChecksPassBefore(cfg, o, cfg.warmUpCount + 1)
  }

  /** The daemon checks a run must pass: there are warm-up builds, every later warm-up
      build's daemon passes against the first one, and so does the last build's. */
  predicate DaemonChecksPass(cfg: Config, o: Oracle)
  {
    && cfg.warmUpCount > 0
    && WarmUpChecksPass(cfg, o)
    && DaemonAccepted(cfg, o.pidOf(WarmUp, 1), LastPid(cfg, o).value)
  }

  /** When the daemon checks pass, no action of the guarded part fails on its own. */
  lemma BodyActionPasses(cfg: Config, o: Oracle, a: Action)
    requires o.failAt.None? && DaemonChecksPass(cfg, o)
    requires a in BodyPlan(cfg, o)
    ensures FailureOf(a, o.failAt).None?
  {
    BodyActions(cfg, o, a);
    if j :| 1 <= j <= cfg.warmUpCount && a in WarmUpIteration(cfg, o, j, WarmUpBaseline(o, j)) {
      WarmUpActionPasses(cfg, o, j, a);
    } else if j :| 1 <= j <= cfg.buildCount && a in MeasureIteration(cfg, o, j) {
      MeasureActionPasses(cfg, o, j, a);
    } else if a in Epilogue(cfg, o) {
      EpilogueActionPasses(cfg, o, a);
    }
  }

  lemma WarmUpActionPasses(cfg: Config, o: Oracle, j: nat, a: Action)
    requires o.failAt.None? && WarmUpChecksPass(cfg, o)
    requires 1 <= j <= cfg.warmUpCount && a in WarmUpIteration(cfg, o, j, WarmUpBaseline(o, j))
    ensures FailureOf(a, o.failAt).None?
  {
    assert j > 1 ==> DaemonAccepted(cfg, o.pidOf(WarmUp, 1), o.pidOf(WarmUp, j));
  }

  lemma MeasureActionPasses(cfg: Config, o: Oracle, j: nat, a: Action)
    requires o.failAt.None?
    requires a in MeasureIteration(cfg, o, j)
    ensures FailureOf(a, o.failAt).None?
  {
  }

  lemma EpilogueActionPasses(cfg: Config, o: Oracle, a: Action)
    requires o.failAt.None? && DaemonChecksPass(cfg, o)
    requires a in Epilogue(cfg, o)
    ensures FailureOf(a, o.failAt).None?
  {
    PhaseResults(cfg, o);
  }

  /** Every daemon check of the guarded part is one of its actions, so if no check fails
      (collaborator calls aside) the checks pass. */
  lemma BodyChecksNeeded(cfg: Config, o: Oracle)
    requires forall a :: a in BodyPlan(cfg, o) && !a.Call? ==> FailureOf(a, o.failAt).None?
    ensures DaemonChecksPass(cfg, o)
  {
    PhaseResults(cfg, o);
    var p1 := o.pidOf(WarmUp, 1);
    var epilogue := Epilogue(cfg, o);
    assert forall a :: a in epilogue ==> a in BodyPlan(cfg, o);
    assert RequireResult(LastPid(cfg, o).Some?) in epilogue;
    assert FailureOf(RequireResult(LastPid(cfg, o).Some?), o.failAt).None?;
    var finalCheck := VerifyPid(FirstWarmUpPid(cfg, o), LastPid(cfg, o).value, cfg.reuseDaemon);
    assert finalCheck in epilogue;
    assert FailureOf(finalCheck, o.failAt).None?;
    if cfg.warmUpCount > 0 {
      forall j | 2 <= j <= cfg.warmUpCount ensures DaemonAccepted(cfg, p1, o.pidOf(WarmUp, j)) {
        var check := VerifyPid(Some(p1), o.pidOf(WarmUp, j), cfg.reuseDaemon);
        assert check in WarmUpIteration(cfg, o, j, WarmUpBaseline(o, j));
        BodyActions(cfg, o, check);
      }
    }
  }

  lemma BodySucceedsIff(cfg: Config, o: Oracle)
    requires o.failAt.None?
    ensures Execute(BodyPlan(cfg, o), o.failAt).failure.None? <==> DaemonChecksPass(cfg, o)
  {
    var plan := BodyPlan(cfg, o);
    ExecuteSucceedsIff(plan, o.failAt);
    var bodyOk := forall a :: a in plan ==> FailureOf(a, o.failAt).None?;
    assert Execute(plan, o.failAt).failure.None? <==> bodyOk by {
      assert forall a :: a in plan <==> exists j :: 0 <= j < |plan| && plan[j] == a;
    }
    if bodyOk {
      BodyChecksNeeded(cfg, o);
    }
    if DaemonChecksPass(cfg, o) {
      forall a | a in plan ensures FailureOf(a, o.failAt).None? {
        BodyActionPasses(cfg, o, a);
      }
    }
  }

  /** With no failing collaborator, a run succeeds exactly when its daemon checks pass. */
  lemma SuccessCharacterization(cfg: Config, o: Oracle)
    requires o.failAt.None?
    ensures Run(cfg, o).outcome.Success? <==> !PreflightFails(cfg) && DaemonChecksPass(cfg, o)
  {
    BodySucceedsIff(cfg, o);
  }

  /** A successful run passed its daemon checks and shows each of them in its trace. */
  lemma SuccessfulRunCheckedDaemons(cfg: Config, o: Oracle)
    requires Run(cfg, o).outcome.Success?
    ensures DaemonChecksPass(cfg, o)
    ensures forall j :: 2 <= j <= cfg.warmUpCount ==>
      PidChecked(Some(o.pidOf(WarmUp, 1)), o.pidOf(WarmUp, j)) in Run(cfg, o).trace
    ensures PidChecked(Some(o.pidOf(WarmUp, 1)), LastPid(cfg, o).value) in Run(cfg, o).trace
  {
    var plan := BodyPlan(cfg, o);
    SuccessfulRunEvents(cfg, o, StopDaemon);
    ExecuteSucceedsIff(plan, o.failAt);
    assert forall a :: a in plan ==> FailureOf(a, o.failAt).None? by {
      assert forall a :: a in plan ==> exists j :: 0 <= j < |plan| && plan[j] == a;
    }
    BodyChecksNeeded(cfg, o);
    var p1 := o.pidOf(WarmUp, 1);
    forall j | 2 <= j <= cfg.warmUpCount
      ensures PidChecked(Some(p1), o.pidOf(WarmUp, j)) in Run(cfg, o).trace
    {
      var e := PidChecked(Some(p1), o.pidOf(WarmUp, j));
      assert WarmUpEvent(cfg, o, j, e);
      RunEvents(cfg, o, e);
    }
    var e := PidChecked(Some(p1), LastPid(cfg, o).value);
    assert EpilogueEvent(cfg, o, e);
    RunEvents(cfg, o, e);
  }

  /** The iteration of a phase that an event belongs to, for the per-iteration events. */
  function StepOf(e: Event): Option<(Phase, nat)>
  {
    match e
    case RunCleanup(phase, i, _, _) => Some((phase, i))
    case RunBuild(phase, i, _) => Some((phase, i))
    case Deliver(phase, i) => Some((phase, i))
    case StartRecording(i) => Some((Measure, i))
    case StopRecording(i, _) => Some((Measure, i))
    case _ => None
  }

  /** Whether iteration `i` of `phase` ran and produced `e`. */
  predicate StepEvent(cfg: Config, o: Oracle, phase: Phase, i: nat, e: Event)
  {
    match phase
    case WarmUp => 1 <= i <= cfg.warmUpCount && WarmUpEvent(cfg, o, i, e)
    case Measure => 1 <= i <= cfg.buildCount && MeasureEvent(cfg, o, i, e)
  }

  /** A per-iteration event belongs to the guarded part exactly when its own iteration produced it. */
  lemma StepBodyEvent(cfg: Config, o: Oracle, e: Event)
    requires StepOf(e).Some?
    ensures BodyEvent(cfg, o, e) <==> StepEvent(cfg, o, StepOf(e).value.0, StepOf(e).value.1, e)
  {
    var (phase, i) := StepOf(e).value;
    if StepEvent(cfg, o, phase, i, e) {
      if phase == WarmUp {
        assert 1 <= i <= cfg.warmUpCount && WarmUpEvent(cfg, o, i, e);
      } else {
        assert 1 <= i <= cfg.buildCount && MeasureEvent(cfg, o, i, e);
      }
    }
  }

  /** A per-iteration event is none of the opening and cleanup events. */
  lemma StepEventOutsideFrame(e: Event)
    requires StepOf(e).Some?
    ensures !(e == StopDaemon || e == OpenConnection || e == AfterScenario || e == CloseConnection)
  {
  }

  /** A per-iteration event of a successful run is there exactly when its iteration ran
      and produced it. */
  lemma SuccessfulStep(cfg: Config, o: Oracle, e: Event)
    requires Run(cfg, o).outcome.Success?
    requires StepOf(e).Some?
    ensures e in Run(cfg, o).trace <==> StepEvent(cfg, o, StepOf(e).value.0, StepOf(e).value.1, e)
  {
    RunEvents(cfg, o, e);
    StepEventOutsideFrame(e);
    StepBodyEvent(cfg, o, e);
  }

  /** In a successful run a recording starts before measured build `i` exactly when `i`
      is the first or the before-build action does something. */
  lemma RecordingStarts(cfg: Config, o: Oracle)
    requires Run(cfg, o).outcome.Success?
    ensures forall i: nat :: StartRecording(i) in Run(cfg, o).trace <==>
      1 <= i <= cfg.buildCount && (i == 1 || DoesSomething(cfg))
  {
    forall i: nat ensures StartRecording(i) in Run(cfg, o).trace <==>
      1 <= i <= cfg.buildCount && (i == 1 || DoesSomething(cfg))
    {
      SuccessfulStep(cfg, o, StartRecording(i));
    }
  }

  /** In a successful run a recording stops after measured build `i`, with that build's
      pid, exactly when `i` is the last or the before-build action does something. */
  lemma RecordingStops(cfg: Config, o: Oracle)
    requires Run(cfg, o).outcome.Success?
    ensures forall i: nat, pid :: StopRecording(i, pid) in Run(cfg, o).trace <==>
      1 <= i <= cfg.buildCount && (i == cfg.buildCount || DoesSomething(cfg)) && pid == o.pidOf(Measure, i)
  {
    forall i: nat, pid: Pid ensures StopRecording(i, pid) in Run(cfg, o).trace <==>
      1 <= i <= cfg.buildCount && (i == cfg.buildCount || DoesSomething(cfg)) && pid == o.pidOf(Measure, i)
    {
      SuccessfulStep(cfg, o, StopRecording(i, pid));
    }
  }

  /** A successful run ran every build of both phases, warm-up builds through the base
      invoker and measured builds through the instrumented one, and no other. */
  lemma SuccessfulBuilds(cfg: Config, o: Oracle)
    requires Run(cfg, o).outcome.Success?
    ensures forall i: nat :: RunBuild(WarmUp, i, BaseInvoker) in Run(cfg, o).trace <==> 1 <= i <= cfg.warmUpCount
    ensures forall i: nat :: RunBuild(Measure, i, InstrumentedInvoker) in Run(cfg, o).trace <==> 1 <= i <= cfg.buildCount
  {
    forall i: nat ensures RunBuild(WarmUp, i, BaseInvoker) in Run(cfg, o).trace <==> 1 <= i <= cfg.warmUpCount {
      SuccessfulStep(cfg, o, RunBuild(WarmUp, i, BaseInvoker));
    }
    forall i: nat ensures RunBuild(Measure, i, InstrumentedInvoker) in Run(cfg, o).trace <==> 1 <= i <= cfg.buildCount {
      SuccessfulStep(cfg, o, RunBuild(Measure, i, InstrumentedInvoker));
    }
  }

  /** A successful run handed every build result of both phases to the consumer. */
  lemma SuccessfulDeliveries(cfg: Config, o: Oracle)
    requires Run(cfg, o).outcome.Success?
    ensures forall i: nat :: Deliver(WarmUp, i) in Run(cfg, o).trace <==> 1 <= i <= cfg.warmUpCount
    ensures forall i: nat :: Deliver(Measure, i) in Run(cfg, o).trace <==> 1 <= i <= cfg.buildCount
  {
    forall i: nat ensures Deliver(WarmUp, i) in Run(cfg, o).trace <==> 1 <= i <= cfg.warmUpCount {
      SuccessfulStep(cfg, o, Deliver(WarmUp, i));
    }
    forall i: nat ensures Deliver(Measure, i) in Run(cfg, o).trace <==> 1 <= i <= cfg.buildCount {
      SuccessfulStep(cfg, o, Deliver(Measure, i));
    }
  }

  /** A successful run ran the before-build action before every build of both phases
      exactly when that action does something. */
  lemma SuccessfulCleanups(cfg: Config, o: Oracle)
    requires Run(cfg, o).outcome.Success?
    ensures forall i: nat :: RunCleanup(WarmUp, i, BaseInvoker, BeforeBuild(cfg)) in Run(cfg, o).trace <==>
      1 <= i <= cfg.warmUpCount && DoesSomething(cfg)
    ensures forall i: nat :: RunCleanup(Measure, i, BaseInvoker, BeforeBuild(cfg)) in Run(cfg, o).trace <==>
      1 <= i <= cfg.buildCount && DoesSomething(cfg)
  {
    forall i: nat ensures RunCleanup(WarmUp, i, BaseInvoker, BeforeBuild(cfg)) in Run(cfg, o).trace <==>
      1 <= i <= cfg.warmUpCount && DoesSomething(cfg)
    {
      SuccessfulStep(cfg, o, RunCleanup(WarmUp, i, BaseInvoker, BeforeBuild(cfg)));
    }
    forall i: nat ensures RunCleanup(Measure, i, BaseInvoker, BeforeBuild(cfg)) in Run(cfg, o).trace <==>
      1 <= i <= cfg.buildCount && DoesSomething(cfg)
    {
      SuccessfulStep(cfg, o, RunCleanup(Measure, i, BaseInvoker, BeforeBuild(cfg)));
    }
  }
}
