/** Which planned action each event of a run comes from. */
module Origins {
  import opened Optional
  import opened Events
  import opened Execution
  import opened Scenario

  /** The baseline held when warm-up iteration `j` starts. */
  function WarmUpBaseline(o: Oracle, j: nat): Option<Pid>
  {
    if j == 1 then None else Some(o.pidOf(WarmUp, 1))
  }

  /** The baseline the run ends up with: the first warm-up build's pid, if there is one. */
  function FirstWarmUpPid(cfg: Config, o: Oracle): Option<Pid>
  {
    if cfg.warmUpCount > 0 then Some(o.pidOf(WarmUp, 1)) else None
  }

  /** The pid of the last build of the run, which the final daemon check looks at. */
  function LastPid(cfg: Config, o: Oracle): Option<Pid>
  {
    if cfg.buildCount > 0 then Some(o.pidOf(Measure, cfg.buildCount))
    else if cfg.warmUpCount > 0 then Some(o.pidOf(WarmUp, cfg.warmUpCount))
    else None
  }

  /** The loops leave the baseline set by the first warm-up build and the last result
      that of the last measured build, or of the last warm-up build when none is measured. */
  lemma PhaseResults(cfg: Config, o: Oracle)
    ensures WarmUpPhase(cfg, o).baseline == FirstWarmUpPid(cfg, o)
    ensures MeasurePhase(cfg, o).last == LastPid(cfg, o)
  {
  }

  /** The guarded part of a run consists of the scenario hook, every warm-up iteration,
      the controller creation, the session start, every measured iteration and the epilogue. */
  lemma BodyActions(cfg: Config, o: Oracle, a: Action)
    ensures a in BodyPlan(cfg, o) <==>
      || a == Call(BeforeScenarioAt, BeforeScenario)
      || (exists j :: 1 <= j <= cfg.warmUpCount && a in WarmUpIteration(cfg, o, j, WarmUpBaseline(o, j)))
      || a == Note(CreateController(FirstWarmUpPid(cfg, o)))
      || a == Call(StartSessionAt, StartSession)
      || (exists j :: 1 <= j <= cfg.buildCount && a in MeasureIteration(cfg, o, j))
      || a in Epilogue(cfg, o)
  {
    PhaseResults(cfg, o);
    var warm := WarmUpPhase(cfg, o);
    var measure := MeasurePhase(cfg, o);
    MeasureLoopActions(cfg, o, 1, warm.last, a);
    WarmUpPhaseActions(cfg, o, a);
    assert a in BodyPlan(cfg, o) <==>
      || a == Call(BeforeScenarioAt, BeforeScenario)
      || a in warm.actions
      || a == Note(CreateController(warm.baseline))
      || a == Call(StartSessionAt, StartSession)
      || a in measure.actions
      || a in Epilogue(cfg, o);
  }

  /** The warm-up phase consists of every warm-up iteration, each with the baseline it starts with. */
  lemma WarmUpPhaseActions(cfg: Config, o: Oracle, a: Action)
    ensures a in WarmUpPhase(cfg, o).actions <==>
      exists j :: 1 <= j <= cfg.warmUpCount && a in WarmUpIteration(cfg, o, j, WarmUpBaseline(o, j))
  {
    var later := NextBaseline(None, o.pidOf(WarmUp, 1));
    WarmUpLoopActions(cfg, o, 1, None, None, a);
    assert forall j :: 1 < j ==> WarmUpBaseline(o, j) == later;
    assert WarmUpBaseline(o, 1) == None;
    if a in WarmUpPhase(cfg, o).actions {
      if 1 <= cfg.warmUpCount && a in WarmUpIteration(cfg, o, 1, None) {
        assert a in WarmUpIteration(cfg, o, 1, WarmUpBaseline(o, 1));
      } else {
        var j :| 1 < j <= cfg.warmUpCount && a in WarmUpIteration(cfg, o, j, later);
        assert a in WarmUpIteration(cfg, o, j, WarmUpBaseline(o, j));
      }
    }
    if exists j :: 1 <= j <= cfg.warmUpCount && a in WarmUpIteration(cfg, o, j, WarmUpBaseline(o, j)) {
      var j :| 1 <= j <= cfg.warmUpCount && a in WarmUpIteration(cfg, o, j, WarmUpBaseline(o, j));
      if j > 1 {
        assert a in WarmUpIteration(cfg, o, j, later);
      } else {
        assert a in WarmUpIteration(cfg, o, 1, None);
      }
    }
  }

  /** Every event of a run is one of the opening or cleanup events, or comes from an
      action of the guarded part. */
  lemma RunEventOrigin(cfg: Config, o: Oracle, e: Event)
    ensures e in Run(cfg, o).trace ==>
      || e == StopDaemon || e == OpenConnection || e == AfterScenario || e == CloseConnection
      || exists a :: a in BodyPlan(cfg, o) && e in EventsOf(a)
  {
    if !PreflightFails(cfg) {
      var opening := Execute(OpeningPlan, o.failAt);
      OpeningExecution(o.failAt);
      if opening.failure.None? {
        var body := Execute(BodyPlan(cfg, o), o.failAt);
        var cleanup := Execute(CleanupPlan, o.failAt);
        ExecutePrefix(BodyPlan(cfg, o), o.failAt);
        ExecutePrefix(CleanupPlan, o.failAt);
        CleanupTrace();
        GuardedTraceMember(body.events, Trace(BodyPlan(cfg, o)), cleanup.events, e);
        TraceMember(BodyPlan(cfg, o), e);
      }
    }
  }

  /** An event of the opening, a prefix of the guarded part's events and a prefix of the
      cleanup events is an opening or cleanup event or one of the guarded part's. */
  lemma GuardedTraceMember(body: seq<Event>, full: seq<Event>, cleanup: seq<Event>, e: Event)
    requires body <= full && cleanup <= CleanupEvents
    ensures e in [StopDaemon, OpenConnection] + body + cleanup ==>
      e == StopDaemon || e == OpenConnection || e == AfterScenario || e == CloseConnection || e in full
  {
    assert forall x :: x in cleanup ==> x in CleanupEvents;
    assert forall x :: x in body ==> x in full;
  }

  /** The opening calls: the daemon stop, then the connection, each failing when told to. */
  lemma OpeningExecution(failAt: Option<Site>)
    ensures Execute(OpeningPlan, failAt) ==
      if failAt == Some(InitialStopAt) then Partial([StopDaemon], Some(CollaboratorFailed(InitialStopAt)))
      else if failAt == Some(ConnectAt) then Partial([StopDaemon, OpenConnection], Some(CollaboratorFailed(ConnectAt)))
      else Partial([StopDaemon, OpenConnection], None)
  {
    assert OpeningPlan[1..][1..] == [];
  }

  /** The cleanup calls, when none fails, produce the cleanup events. */
  lemma CleanupTrace()
    ensures Trace(CleanupPlan) == CleanupEvents
  {
    assert CleanupPlan[1..][1..][1..] == [];
  }

  /** The cleanup calls fail exactly when the failing call is one of them; otherwise
      they run in full. */
  lemma CleanupExecution(failAt: Option<Site>)
    ensures Execute(CleanupPlan, failAt).failure.None? <==> !(failAt.Some? && CleanupSite(failAt.value))
    ensures Execute(CleanupPlan, failAt).failure.None? ==> Execute(CleanupPlan, failAt).events == CleanupEvents
  {
    assert CleanupPlan[1..][1..][1..] == [];
  }

  /** A run that opened its connection: the opening events, then whatever the guarded
      part and the cleanup calls produced; a failing cleanup call decides the outcome,
      otherwise the guarded part does. */
  lemma OpenedRun(cfg: Config, o: Oracle)
    requires ConnectionOpened(cfg, o)
    ensures Run(cfg, o).trace ==
      [StopDaemon, OpenConnection] + Execute(BodyPlan(cfg, o), o.failAt).events + Execute(CleanupPlan, o.failAt).events
    ensures Run(cfg, o).outcome ==
      (var body := Execute(BodyPlan(cfg, o), o.failAt);
       var cleanup := Execute(CleanupPlan, o.failAt);
       if cleanup.failure.Some? then Failed(cleanup.failure.value)
       else if body.failure.Some? then Failed(body.failure.value)
       else Success)
  {
    OpeningExecution(o.failAt);
  }

  /** A run that did not open its connection got no further than the opening events. */
  lemma UnopenedRun(cfg: Config, o: Oracle)
    requires !ConnectionOpened(cfg, o)
    ensures forall e :: e in Run(cfg, o).trace ==> e == StopDaemon || e == OpenConnection
  {
    OpeningExecution(o.failAt);
  }

  /** The members of a run's trace when every part of it ran to its end. */
  lemma CompleteTraceMember(full: seq<Event>, e: Event)
    ensures e in [StopDaemon, OpenConnection] + full + CleanupEvents <==>
      e == StopDaemon || e == OpenConnection || e == AfterScenario || e == CloseConnection || e in full
  {
  }

  /** A successful run opened the connection, ran the guarded part to its end and
      ran every cleanup call; its events are exactly those. */
  lemma SuccessfulRunEvents(cfg: Config, o: Oracle, e: Event)
    requires Run(cfg, o).outcome.Success?
    ensures ConnectionOpened(cfg, o)
    ensures !(o.failAt.Some? && CleanupSite(o.failAt.value))
    ensures Execute(BodyPlan(cfg, o), o.failAt).failure.None?
    ensures e in Run(cfg, o).trace <==>
      || e == StopDaemon || e == OpenConnection || e == AfterScenario || e == CloseConnection
      || exists a :: a in BodyPlan(cfg, o) && e in EventsOf(a)
  {
    OpenedRun(cfg, o);
    CleanupExecution(o.failAt);
    ExecuteComplete(BodyPlan(cfg, o), o.failAt);
    CompleteTraceMember(Trace(BodyPlan(cfg, o)), e);
    TraceMember(BodyPlan(cfg, o), e);
  }

  /** The events of warm-up iteration `j`. */
  predicate WarmUpEvent(cfg: Config, o: Oracle, j: nat, e: Event)
  {
    || (e == RunCleanup(WarmUp, j, BaseInvoker, BeforeBuild(cfg)) && DoesSomething(cfg))
    || e == RunBuild(WarmUp, j, BaseInvoker)
    || e == Deliver(WarmUp, j)
    || (j > 1 && e == PidChecked(Some(o.pidOf(WarmUp, 1)), o.pidOf(WarmUp, j)))
  }

  /** The events of measured iteration `j`. */
  predicate MeasureEvent(cfg: Config, o: Oracle, j: nat, e: Event)
  {
    || (e == RunCleanup(Measure, j, BaseInvoker, BeforeBuild(cfg)) && DoesSomething(cfg))
    || (e == StartRecording(j) && (j == 1 || DoesSomething(cfg)))
    || e == RunBuild(Measure, j, InstrumentedInvoker)
    || (e == StopRecording(j, o.pidOf(Measure, j)) && (j == cfg.buildCount || DoesSomething(cfg)))
    || e == Deliver(Measure, j)
  }

  /** The events of the epilogue: session stop, final daemon check, client close. */
  predicate EpilogueEvent(cfg: Config, o: Oracle, e: Event)
  {
    || e == StopSession
    || (LastPid(cfg, o).Some? && e == PidChecked(FirstWarmUpPid(cfg, o), LastPid(cfg, o).value))
    || e == CloseClient
  }

  /** The events the guarded part of a run produces when it runs to its end. */
  predicate BodyEvent(cfg: Config, o: Oracle, e: Event)
  {
    || e == BeforeScenario
    || (exists j :: 1 <= j <= cfg.warmUpCount && WarmUpEvent(cfg, o, j, e))
    || e == CreateController(FirstWarmUpPid(cfg, o))
    || e == StartSession
    || (exists j :: 1 <= j <= cfg.buildCount && MeasureEvent(cfg, o, j, e))
    || EpilogueEvent(cfg, o, e)
  }

  lemma WarmUpIterationEvents(cfg: Config, o: Oracle, j: nat, e: Event)
    requires 1 <= j
    ensures (exists a :: a in WarmUpIteration(cfg, o, j, WarmUpBaseline(o, j)) && e in EventsOf(a))
            <==> WarmUpEvent(cfg, o, j, e)
  {
    var plan := WarmUpIteration(cfg, o, j, WarmUpBaseline(o, j));
    if WarmUpEvent(cfg, o, j, e) {
      if e.RunCleanup? {
        assert plan[0] == Call(CleanupAt(WarmUp, j), e);
        assert plan[0] in plan && e in EventsOf(plan[0]);
      } else if e.RunBuild? {
        assert Call(BuildAt(WarmUp, j), e) in plan;
      } else if e.Deliver? {
        assert Note(e) in plan;
      } else {
        assert VerifyPid(Some(o.pidOf(WarmUp, 1)), o.pidOf(WarmUp, j), cfg.reuseDaemon) in plan;
      }
    }
  }

  lemma MeasureIterationEvents(cfg: Config, o: Oracle, j: nat, e: Event)
    ensures (exists a :: a in MeasureIteration(cfg, o, j) && e in EventsOf(a)) <==> MeasureEvent(cfg, o, j, e)
  {
    var plan := MeasureIteration(cfg, o, j);
    if MeasureEvent(cfg, o, j, e) {
      if e.RunCleanup? {
        assert Call(CleanupAt(Measure, j), e) in plan;
      } else if e.StartRecording? {
        assert Call(StartRecordingAt(j), e) in plan;
      } else if e.RunBuild? {
        assert Call(BuildAt(Measure, j), e) in plan;
      } else if e.StopRecording? {
        assert Call(StopRecordingAt(j), e) in plan;
      } else {
        assert Note(e) in plan;
      }
    }
  }

  lemma EpilogueEvents(cfg: Config, o: Oracle, e: Event)
    ensures (exists a :: a in Epilogue(cfg, o) && e in EventsOf(a)) <==> EpilogueEvent(cfg, o, e)
  {
    PhaseResults(cfg, o);
    var plan := Epilogue(cfg, o);
    if EpilogueEvent(cfg, o, e) {
      if e == StopSession {
        assert plan[0] == Call(StopSessionAt, e);
        assert plan[0] in plan && e in EventsOf(plan[0]);
      } else if e == CloseClient {
        assert plan[|plan| - 1] == Call(CloseClientAt, e);
        assert plan[|plan| - 1] in plan && e in EventsOf(plan[|plan| - 1]);
      } else {
        assert VerifyPid(FirstWarmUpPid(cfg, o), LastPid(cfg, o).value, cfg.reuseDaemon) in plan;
      }
    }
  }

  /** The events produced by the actions of the guarded part are exactly the body events. */
  lemma BodyEvents(cfg: Config, o: Oracle, e: Event)
    ensures (exists a :: a in BodyPlan(cfg, o) && e in EventsOf(a)) <==> BodyEvent(cfg, o, e)
  {
    if exists a :: a in BodyPlan(cfg, o) && e in EventsOf(a) {
      var a :| a in BodyPlan(cfg, o) && e in EventsOf(a);
      ActionBodyEvent(cfg, o, a, e);
    }
    if BodyEvent(cfg, o, e) {
      BodyEventAction(cfg, o, e);
    }
  }

  /** An event of an action of the guarded part is a body event. */
  lemma ActionBodyEvent(cfg: Config, o: Oracle, a: Action, e: Event)
    requires a in BodyPlan(cfg, o) && e in EventsOf(a)
    ensures BodyEvent(cfg, o, e)
  {
    BodyActions(cfg, o, a);
    if j :| 1 <= j <= cfg.warmUpCount && a in WarmUpIteration(cfg, o, j, WarmUpBaseline(o, j)) {
      WarmUpIterationEvents(cfg, o, j, e);
    } else if j :| 1 <= j <= cfg.buildCount && a in MeasureIteration(cfg, o, j) {
      MeasureIterationEvents(cfg, o, j, e);
    } else if a in Epilogue(cfg, o) {
      EpilogueEvents(cfg, o, e);
    }
  }

  /** A body event comes from an action of the guarded part. */
  lemma BodyEventAction(cfg: Config, o: Oracle, e: Event)
    requires BodyEvent(cfg, o, e)
    ensures exists a :: a in BodyPlan(cfg, o) && e in EventsOf(a)
  {
    if j :| 1 <= j <= cfg.warmUpCount && WarmUpEvent(cfg, o, j, e) {
      WarmUpIterationEvents(cfg, o, j, e);
      var a :| a in WarmUpIteration(cfg, o, j, WarmUpBaseline(o, j)) && e in EventsOf(a);
      BodyActions(cfg, o, a);
    } else if j :| 1 <= j <= cfg.buildCount && MeasureEvent(cfg, o, j, e) {
      MeasureIterationEvents(cfg, o, j, e);
      var a :| a in MeasureIteration(cfg, o, j) && e in EventsOf(a);
      BodyActions(cfg, o, a);
    } else if EpilogueEvent(cfg, o, e) {
      EpilogueEvents(cfg, o, e);
      var a :| a in Epilogue(cfg, o) && e in EventsOf(a);
      BodyActions(cfg, o, a);
    } else if e == BeforeScenario {
      BodyActions(cfg, o, Call(BeforeScenarioAt, BeforeScenario));
    } else if e == StartSession {
      BodyActions(cfg, o, Call(StartSessionAt, StartSession));
    } else {
      BodyActions(cfg, o, Note(CreateController(FirstWarmUpPid(cfg, o))));
    }
  }

  /** Every event of a run is an opening, cleanup or body event; a successful run has
      every one of them. */
  lemma RunEvents(cfg: Config, o: Oracle, e: Event)
    ensures e in Run(cfg, o).trace ==>
      e == StopDaemon || e == OpenConnection || e == AfterScenario || e == CloseConnection || BodyEvent(cfg, o, e)
    ensures Run(cfg, o).outcome.Success? ==>
      (e in Run(cfg, o).trace <==>
        e == StopDaemon || e == OpenConnection || e == AfterScenario || e == CloseConnection || BodyEvent(cfg, o, e))
  {
    RunEventOrigin(cfg, o, e);
    BodyEvents(cfg, o, e);
    if Run(cfg, o).outcome.Success? {
      SuccessfulRunEvents(cfg, o, e);
    }
  }
}
