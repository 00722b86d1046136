/** How a run ends when something fails part-way: a failing build ends the measured
    iterations and the profiler session is left unstopped, while the cleanup calls still
    run in order; and the client is closed only after every daemon check has passed. */
module Failures {
  import opened Optional
  import opened Events
  import opened Execution
  import opened Scenario
  import opened Origins
  import opened Properties
  import opened Session
  import opened Ordering

  /** The kinds of event the part before the measured builds produces. */
  predicate PrologueKind(e: Event)
  {
    || e.BeforeScenario? || e.CreateController? || e.StartSession? || e.PidChecked?
    || ((e.RunCleanup? || e.RunBuild? || e.Deliver?) && e.phase == WarmUp)
  }

  /** The kinds of event the measured iterations produce. */
  predicate MeasureKind(e: Event)
  {
    || e.StartRecording? || e.StopRecording?
    || ((e.RunCleanup? || e.RunBuild? || e.Deliver?) && e.phase == Measure)
  }

  /** An action of the part before the measured builds: it produces prologue events and
      is not a measured build. */
  predicate PrologueShaped(a: Action)
  {
    && (forall e :: e in EventsOf(a) ==> PrologueKind(e))
    && !(a.Call? && a.site.BuildAt? && a.site.phase == Measure)
  }

  lemma WarmUpIterationShaped(cfg: Config, o: Oracle, i: nat, baseline: Option<Pid>)
    ensures forall a :: a in WarmUpIteration(cfg, o, i, baseline) ==> PrologueShaped(a)
  {
  }

  lemma PrologueShape(cfg: Config, o: Oracle)
    ensures forall a :: a in Prologue(cfg, o) ==> PrologueShaped(a)
    ensures forall e :: e in Trace(Prologue(cfg, o)) ==> PrologueKind(e)
  {
    var warmUp := WarmUpPhase(cfg, o);
    forall a | a in warmUp.actions ensures PrologueShaped(a) {
      WarmUpLoopActions(cfg, o, 1, None, None, a);
      if a in WarmUpIteration(cfg, o, 1, None) {
        WarmUpIterationShaped(cfg, o, 1, None);
      } else {
        var j :| 1 < j <= cfg.warmUpCount && a in WarmUpIteration(cfg, o, j, Some(o.pidOf(WarmUp, 1)));
        WarmUpIterationShaped(cfg, o, j, Some(o.pidOf(WarmUp, 1)));
      }
    }
    forall e | e in Trace(Prologue(cfg, o)) ensures PrologueKind(e) {
      TraceMember(Prologue(cfg, o), e);
    }
  }

  lemma MeasureIterationShaped(cfg: Config, o: Oracle, i: nat)
    ensures forall a, e :: a in MeasureIteration(cfg, o, i) && e in EventsOf(a) ==> MeasureKind(e)
  {
  }

  lemma MeasureShape(cfg: Config, o: Oracle, i: nat, last: Option<Pid>)
    requires 1 <= i
    ensures forall e :: e in Trace(MeasureLoop(cfg, o, i, last).actions) ==> MeasureKind(e)
  {
    var plan := MeasureLoop(cfg, o, i, last).actions;
    forall e | e in Trace(plan) ensures MeasureKind(e) {
      TraceMember(plan, e);
      var a :| a in plan && e in EventsOf(a);
      MeasureLoopActions(cfg, o, i, last, a);
      var j :| i <= j <= cfg.buildCount && a in MeasureIteration(cfg, o, j);
      MeasureIterationShaped(cfg, o, j);
    }
  }

  /** With measured build `k` failing, iteration `i < k` runs in full. */
  lemma MeasureIterationPasses(cfg: Config, o: Oracle, i: nat, k: nat)
    requires o.failAt == Some(BuildAt(Measure, k)) && i != k
    ensures Execute(MeasureIteration(cfg, o, i), o.failAt) == Partial(Trace(MeasureIteration(cfg, o, i)), None)
  {
    var plan := MeasureIteration(cfg, o, i);
    ExecuteSucceedsIff(plan, o.failAt);
    ExecuteComplete(plan, o.failAt);
    assert forall j :: 0 <= j < |plan| ==> FailureOf(plan[j], o.failAt).None? by {
      assert forall j :: 0 <= j < |plan| ==> plan[j] in plan;
    }
  }

  /** With measured build `k` failing, iteration `k` stops at that build: its cleanup and
      recording start (when it has them) and the build itself happen, nothing after. */
  lemma MeasureIterationStops(cfg: Config, o: Oracle, k: nat)
    requires o.failAt == Some(BuildAt(Measure, k))
    ensures Execute(MeasureIteration(cfg, o, k), o.failAt).failure == Some(CollaboratorFailed(BuildAt(Measure, k)))
    ensures Execute(MeasureIteration(cfg, o, k), o.failAt).events ==
      Trace(BeforeBuildSteps(cfg, Measure, k) + RecordingStartSteps(cfg, k)) + [RunBuild(Measure, k, InstrumentedInvoker)]
  {
    var head := BeforeBuildSteps(cfg, Measure, k) + RecordingStartSteps(cfg, k);
    var build := [Call(BuildAt(Measure, k), RunBuild(Measure, k, InstrumentedInvoker))];
    var tail := RecordingStopSteps(cfg, o, k) + [Note(Deliver(Measure, k))];
    assert MeasureIteration(cfg, o, k) == head + (build + tail);
    ExecuteAppend(head, build + tail, o.failAt);
    ExecuteAppend(build, tail, o.failAt);
    ExecuteSucceedsIff(head, o.failAt);
    ExecuteComplete(head, o.failAt);
    assert Execute(head, o.failAt).failure.None?;
  }

  /** A measured iteration run in full hands over its own result and runs its own build only. */
  lemma MeasureIterationMarks(cfg: Config, o: Oracle, i: nat, j: nat)
    ensures Deliver(Measure, j) in Trace(MeasureIteration(cfg, o, i)) <==> j == i
    ensures RunBuild(Measure, j, InstrumentedInvoker) in Trace(MeasureIteration(cfg, o, i)) <==> j == i
  {
    MeasureIterationTrace(cfg, o, i);
  }

  /** A measured iteration stopped at its build hands nothing over and runs its own build only. */
  lemma StoppedIterationMarks(cfg: Config, k: nat, j: nat)
    ensures Deliver(Measure, j) !in
      Trace(BeforeBuildSteps(cfg, Measure, k) + RecordingStartSteps(cfg, k)) + [RunBuild(Measure, k, InstrumentedInvoker)]
    ensures RunBuild(Measure, j, InstrumentedInvoker) in
      Trace(BeforeBuildSteps(cfg, Measure, k) + RecordingStartSteps(cfg, k)) + [RunBuild(Measure, k, InstrumentedInvoker)]
      <==> j == k
  {
    var a := BeforeBuildSteps(cfg, Measure, k);
    var b := RecordingStartSteps(cfg, k);
    TraceAppend(a, b);
    if DoesSomething(cfg) { TraceSingle(a[0]); }
    if k == 1 || DoesSomething(cfg) { TraceSingle(b[0]); }
  }

  /** What the measured iterations from `i` on do when measured build `k` fails. */
  ghost predicate StopsAt(cfg: Config, o: Oracle, i: nat, last: Option<Pid>, k: nat)
    requires 1 <= i
  {
    var r := Execute(MeasureLoop(cfg, o, i, last).actions, o.failAt);
    && r.failure == Some(CollaboratorFailed(BuildAt(Measure, k)))
    && (forall j: nat :: Deliver(Measure, j) in r.events <==> i <= j < k)
    && (forall j: nat :: RunBuild(Measure, j, InstrumentedInvoker) in r.events <==> i <= j <= k)
  }

  /** An iteration before the failing build runs in full and hands its result over. */
  lemma MeasureLoopPassesOn(cfg: Config, o: Oracle, i: nat, last: Option<Pid>, k: nat)
    requires o.failAt == Some(BuildAt(Measure, k))
    requires 1 <= i < k <= cfg.buildCount
    requires StopsAt(cfg, o, i + 1, Some(o.pidOf(Measure, i)), k)
    ensures StopsAt(cfg, o, i, last, k)
  {
    var iteration := MeasureIteration(cfg, o, i);
    var rest := MeasureLoop(cfg, o, i + 1, Some(o.pidOf(Measure, i))).actions;
    assert MeasureLoop(cfg, o, i, last).actions == iteration + rest;
    ExecuteAppend(iteration, rest, o.failAt);
    MeasureIterationPasses(cfg, o, i, k);
    var later := Execute(rest, o.failAt).events;
    var events := Trace(iteration) + later;
    assert Execute(iteration + rest, o.failAt) == Partial(events, Execute(rest, o.failAt).failure);
    forall j: nat
      ensures Deliver(Measure, j) in events <==> i <= j < k
      ensures RunBuild(Measure, j, InstrumentedInvoker) in events <==> i <= j <= k
    {
      MeasureIterationMarks(cfg, o, i, j);
    }
  }

  /** The failing iteration ends the measured iterations. */
  lemma MeasureLoopStopsHere(cfg: Config, o: Oracle, last: Option<Pid>, k: nat)
    requires o.failAt == Some(BuildAt(Measure, k))
    requires 1 <= k <= cfg.buildCount
    ensures StopsAt(cfg, o, k, last, k)
  {
    var iteration := MeasureIteration(cfg, o, k);
    var rest := MeasureLoop(cfg, o, k + 1, Some(o.pidOf(Measure, k))).actions;
    assert MeasureLoop(cfg, o, k, last).actions == iteration + rest;
    ExecuteAppend(iteration, rest, o.failAt);
    MeasureIterationStops(cfg, o, k);
    assert Execute(iteration + rest, o.failAt) == Execute(iteration, o.failAt);
    var events := Execute(iteration, o.failAt).events;
    forall j: nat
      ensures Deliver(Measure, j) !in events
      ensures RunBuild(Measure, j, InstrumentedInvoker) in events <==> j == k
    {
      StoppedIterationMarks(cfg, k, j);
    }
  }

  /** With measured build `k` failing, the measured iterations from `i` on hand over the
      results of the builds before `k`, run builds up to `k`, and report the failure. */
  lemma {:induction false} MeasureLoopStops(cfg: Config, o: Oracle, i: nat, last: Option<Pid>, k: nat)
    requires o.failAt == Some(BuildAt(Measure, k))
    requires 1 <= i <= k <= cfg.buildCount
    ensures StopsAt(cfg, o, i, last, k)
    decreases k - i
  {
    if i < k {
      MeasureLoopStops(cfg, o, i + 1, Some(o.pidOf(Measure, i)), k);
      MeasureLoopPassesOn(cfg, o, i, last, k);
    } else {
      MeasureLoopStopsHere(cfg, o, last, k);
    }
  }

  /** A run failing with a collaborator failure at `site` opened its connection, ran its
      cleanup in full, and failed in its guarded part, at that site. */
  lemma GuardedFailure(cfg: Config, o: Oracle, site: Site)
    requires Run(cfg, o).outcome == Failed(CollaboratorFailed(site))
    requires site != InitialStopAt && site != ConnectAt && !CleanupSite(site)
    ensures o.failAt == Some(site)
    ensures Execute(BodyPlan(cfg, o), o.failAt).failure == Some(CollaboratorFailed(site))
    ensures Run(cfg, o).trace == [StopDaemon, OpenConnection] + Execute(BodyPlan(cfg, o), o.failAt).events + CleanupEvents
  {
    var body := Execute(BodyPlan(cfg, o), o.failAt);
    OpeningExecution(o.failAt);
    CleanupExecution(o.failAt);
    assert body.failure == Some(CollaboratorFailed(site));
    CollaboratorFailureSite(BodyPlan(cfg, o), o.failAt, site);
  }

  /** The calls of warm-up iteration `j`: its cleanup and its build. */
  lemma WarmUpIterationCalls(cfg: Config, o: Oracle, j: nat, baseline: Option<Pid>, a: Action)
    requires a in WarmUpIteration(cfg, o, j, baseline) && a.Call?
    ensures a.site == CleanupAt(WarmUp, j) || a.site == BuildAt(WarmUp, j)
  {
  }

  /** The calls of measured iteration `j`: its cleanup, the recording calls and its build. */
  lemma MeasureIterationCalls(cfg: Config, o: Oracle, j: nat, a: Action)
    requires a in MeasureIteration(cfg, o, j) && a.Call?
    ensures || a.site == CleanupAt(Measure, j) || a.site == StartRecordingAt(j)
            || a.site == BuildAt(Measure, j) || a.site == StopRecordingAt(j)
  {
  }

  /** Only a measured iteration holds a measured build. */
  lemma MeasuredBuildSite(cfg: Config, o: Oracle, a: Action, k: nat)
    requires a in BodyPlan(cfg, o) && a.Call? && a.site == BuildAt(Measure, k)
    ensures 1 <= k <= cfg.buildCount
  {
    BodyActions(cfg, o, a);
    if j :| 1 <= j <= cfg.warmUpCount && a in WarmUpIteration(cfg, o, j, WarmUpBaseline(o, j)) {
      WarmUpIterationCalls(cfg, o, j, WarmUpBaseline(o, j), a);
      assert false;
    }
    if j :| 1 <= j <= cfg.buildCount && a in MeasureIteration(cfg, o, j) {
      MeasureIterationCalls(cfg, o, j, a);
    }
  }

  /** The prologue holds no measured build, so it cannot fail at one. */
  lemma PrologueHasNoMeasuredBuild(cfg: Config, o: Oracle, k: nat)
    ensures Execute(Prologue(cfg, o), o.failAt).failure != Some(CollaboratorFailed(BuildAt(Measure, k)))
  {
    FailureFromPlan(Prologue(cfg, o), o.failAt);
    PrologueShape(cfg, o);
  }

  /** When the guarded part fails at measured build `k`, it ran the whole prologue and
      then stopped in the measured iterations. */
  lemma BodyStopsAtMeasuredBuild(cfg: Config, o: Oracle, k: nat)
    requires o.failAt == Some(BuildAt(Measure, k)) && 1 <= k <= cfg.buildCount
    requires Execute(BodyPlan(cfg, o), o.failAt).failure == Some(CollaboratorFailed(BuildAt(Measure, k)))
    ensures Execute(BodyPlan(cfg, o), o.failAt).events ==
      Trace(Prologue(cfg, o)) + Execute(MeasurePhase(cfg, o).actions, o.failAt).events
    ensures StopsAt(cfg, o, 1, WarmUpPhase(cfg, o).last, k)
  {
    var prologue := Prologue(cfg, o);
    var measure := MeasurePhase(cfg, o);
    assert BodyPlan(cfg, o) == prologue + (measure.actions + Epilogue(cfg, o));
    ExecuteAppend(prologue, measure.actions + Epilogue(cfg, o), o.failAt);
    PrologueHasNoMeasuredBuild(cfg, o, k);
    ExecuteComplete(prologue, o.failAt);
    ExecuteAppend(measure.actions, Epilogue(cfg, o), o.failAt);
    MeasureLoopStops(cfg, o, 1, WarmUpPhase(cfg, o).last, k);
  }

  /** The shape of a trace that opened the connection, ran the prologue, stopped in the
      measured iterations and then ran the cleanup. */
  lemma StoppedTrace(prologue: seq<Event>, measured: seq<Event>, k: nat)
    requires forall e :: e in prologue ==> PrologueKind(e)
    requires forall e :: e in measured ==> MeasureKind(e)
    requires forall j: nat :: Deliver(Measure, j) in measured <==> 1 <= j < k
    requires forall j: nat :: RunBuild(Measure, j, InstrumentedInvoker) in measured <==> 1 <= j <= k
    ensures var t := [StopDaemon, OpenConnection] + (prologue + measured) + CleanupEvents;
      && (forall j: nat :: Deliver(Measure, j) in t <==> 1 <= j < k)
      && (forall j: nat :: RunBuild(Measure, j, InstrumentedInvoker) in t <==> 1 <= j <= k)
      && StopSession !in t && CloseClient !in t
      && |t| >= 3 && t[|t| - 3..] == CleanupEvents
  {
    var t := [StopDaemon, OpenConnection] + (prologue + measured) + CleanupEvents;
    assert t[|t| - 3..] == CleanupEvents;
  }

  /** A run that fails at measured build `k`: the results of the builds before `k` were
      handed over and no later build ran; the session was neither stopped nor the client
      closed; the cleanup calls ran in order. */
  lemma MeasuredBuildFailure(cfg: Config, o: Oracle, k: nat)
    requires Run(cfg, o).outcome == Failed(CollaboratorFailed(BuildAt(Measure, k)))
    ensures 1 <= k <= cfg.buildCount
    ensures forall j: nat :: Deliver(Measure, j) in Run(cfg, o).trace <==> 1 <= j < k
    ensures forall j: nat :: RunBuild(Measure, j, InstrumentedInvoker) in Run(cfg, o).trace <==> 1 <= j <= k
    ensures StopSession !in Run(cfg, o).trace && CloseClient !in Run(cfg, o).trace
    ensures |Run(cfg, o).trace| >= 3 && Run(cfg, o).trace[|Run(cfg, o).trace| - 3..] == CleanupEvents
  {
    var site := BuildAt(Measure, k);
    GuardedFailure(cfg, o, site);
    FailureFromPlan(BodyPlan(cfg, o), o.failAt);
    var culprit :| culprit in BodyPlan(cfg, o) && FailureOf(culprit, o.failAt) == Some(CollaboratorFailed(site));
    MeasuredBuildSite(cfg, o, culprit, k);
    BodyStopsAtMeasuredBuild(cfg, o, k);
    var plan := MeasurePhase(cfg, o).actions;
    var measured := Execute(plan, o.failAt).events;
    PrologueShape(cfg, o);
    MeasureShape(cfg, o, 1, WarmUpPhase(cfg, o).last);
    ExecutePrefix(plan, o.failAt);
    assert forall e :: e in measured ==> MeasureKind(e) by {
      assert forall e :: e in measured ==> e in Trace(plan);
    }
    StoppedTrace(Trace(Prologue(cfg, o)), measured, k);
  }

  /** The guarded part up to, but not including, the client close. */
  function UntilClose(cfg: Config, o: Oracle): seq<Action>
  {
    Prologue(cfg, o) + MeasurePhase(cfg, o).actions
    + SessionEnd(WarmUpPhase(cfg, o).baseline, MeasurePhase(cfg, o).last, cfg.reuseDaemon)
  }

  /** The client close is the last action of the guarded part. */
  lemma CloseIsLast(cfg: Config, o: Oracle)
    ensures BodyPlan(cfg, o) == UntilClose(cfg, o) + [Call(CloseClientAt, CloseClient)]
    ensures CloseClient !in Trace(UntilClose(cfg, o))
  {
    NoEarlierClose(cfg, o);
  }

  /** No action before the client close closes the client. */
  lemma NoEarlierClose(cfg: Config, o: Oracle)
    ensures CloseClient !in Trace(UntilClose(cfg, o))
  {
    var prologue := Prologue(cfg, o);
    var measure := MeasurePhase(cfg, o);
    var baseline := WarmUpPhase(cfg, o).baseline;
    var end := SessionEnd(baseline, measure.last, cfg.reuseDaemon);
    assert CloseClient !in Trace(prologue) by {
      PrologueShape(cfg, o);
    }
    assert CloseClient !in Trace(measure.actions) by {
      MeasureShape(cfg, o, 1, WarmUpPhase(cfg, o).last);
    }
    assert CloseClient !in Trace(end) by {
      SessionEndTrace(baseline, measure.last, cfg.reuseDaemon);
    }
    TraceAppend(prologue + measure.actions, end);
    TraceAppend(prologue, measure.actions);
    InConcat(CloseClient, Trace(prologue), Trace(measure.actions));
    InConcat(CloseClient, Trace(prologue) + Trace(measure.actions), Trace(end));
  }

  /** When the client close was attempted, everything before it ran and passed. */
  lemma ClosedBodyRanFully(cfg: Config, o: Oracle)
    requires CloseClient in Execute(BodyPlan(cfg, o), o.failAt).events
    ensures Execute(BodyPlan(cfg, o), o.failAt).events == Trace(BodyPlan(cfg, o))
    ensures Execute(UntilClose(cfg, o), o.failAt).failure.None?
  {
    var init := UntilClose(cfg, o);
    var close := [Call(CloseClientAt, CloseClient)];
    CloseIsLast(cfg, o);
    ExecuteAppend(init, close, o.failAt);
    ExecutePrefix(init, o.failAt);
    ExecuteComplete(init, o.failAt);
    ExecuteComplete(BodyPlan(cfg, o), o.failAt);
    assert Execute(init, o.failAt).failure.None?;
    TraceAppend(init, close);
  }

  /** The client is closed only when the connection was opened, every daemon check has
      passed and the guarded part ran to its end, the final check included. */
  lemma ClientClosedAfterChecks(cfg: Config, o: Oracle)
    requires CloseClient in Run(cfg, o).trace
    ensures ConnectionOpened(cfg, o)
    ensures DaemonChecksPass(cfg, o)
    ensures |Run(cfg, o).trace| >= 2 + |Trace(BodyPlan(cfg, o))|
    ensures Run(cfg, o).trace[2..2 + |Trace(BodyPlan(cfg, o))|] == Trace(BodyPlan(cfg, o))
  {
    if !ConnectionOpened(cfg, o) {
      UnopenedRun(cfg, o);
    }
    OpenedRun(cfg, o);
    var body := Execute(BodyPlan(cfg, o), o.failAt);
    var cleanup := Execute(CleanupPlan, o.failAt);
    ExecutePrefix(CleanupPlan, o.failAt);
    CleanupTrace();
    CloseInGuardedPart(body.events, cleanup.events);
    ClosedBodyRanFully(cfg, o);
    ChecksBeforeClose(cfg, o);
  }

  /** The cleanup calls do not close the client, so a close in a run's trace comes from
      its guarded part, which then sits right after the opening events. */
  lemma CloseInGuardedPart(body: seq<Event>, cleanup: seq<Event>)
    requires cleanup <= CleanupEvents
    ensures CloseClient in [StopDaemon, OpenConnection] + body + cleanup ==> CloseClient in body
    ensures ([StopDaemon, OpenConnection] + body + cleanup)[2..2 + |body|] == body
  {
    assert forall e :: e in cleanup ==> e in CleanupEvents;
  }

  /** If everything before the client close passed, so did every daemon check. */
  lemma ChecksBeforeClose(cfg: Config, o: Oracle)
    requires Execute(UntilClose(cfg, o), o.failAt).failure.None?
    ensures DaemonChecksPass(cfg, o)
  {
    var init := UntilClose(cfg, o);
    CloseIsLast(cfg, o);
    ExecuteSucceedsIff(init, o.failAt);
    forall a | a in BodyPlan(cfg, o) && !a.Call? ensures FailureOf(a, o.failAt).None? {
      assert a in init;
      var j :| 0 <= j < |init| && init[j] == a;
    }
    BodyChecksNeeded(cfg, o);
  }

  /** Without warm-up builds there is no baseline pid, so a run that passes the pre-flight
      check (no profiling, or a negative warm-up count, which the check lets through) and
      meets no failing collaborator still fails: at the null check on the last result when
      no build ran at all, otherwise at the final daemon check. */
  lemma ZeroWarmUpOutcome(cfg: Config, o: Oracle)
    requires cfg.warmUpCount <= 0 && !PreflightFails(cfg) && o.failAt.None?
    ensures Run(cfg, o).outcome == Failed(if cfg.buildCount <= 0 then NoBuildResult else NoBaselinePid)
  {
    var head := Prologue(cfg, o) + MeasurePhase(cfg, o).actions;
    var epilogue := Epilogue(cfg, o);
    assert BodyPlan(cfg, o) == head + epilogue;
    assert WarmUpPhase(cfg, o).actions == [];
    forall a | a in head ensures FailureOf(a, o.failAt).None? {
      MeasureLoopActions(cfg, o, 1, WarmUpPhase(cfg, o).last, a);
      if j :| 1 <= j <= cfg.buildCount && a in MeasureIteration(cfg, o, j) {
        MeasureActionPasses(cfg, o, j, a);
      }
    }
    HeadPasses(head, o.failAt);
    ExecuteAppend(head, epilogue, o.failAt);
    PhaseResults(cfg, o);
    EpilogueFailure(LastPid(cfg, o), cfg.reuseDaemon);
    CleanupAlwaysRuns(cfg, o);
  }

  lemma HeadPasses(plan: seq<Action>, failAt: Option<Site>)
    requires forall a :: a in plan ==> FailureOf(a, failAt).None?
    ensures Execute(plan, failAt).failure.None?
  {
    ExecuteSucceedsIff(plan, failAt);
    assert forall j :: 0 <= j < |plan| ==> plan[j] in plan;
  }

  /** The session stop and the checks on the last result, with no baseline pid and no failing collaborator. */
  lemma EpilogueFailure(last: Option<Pid>, reuseDaemon: bool)
    ensures Execute(SessionEnd(None, last, reuseDaemon) + [Call(CloseClientAt, CloseClient)], None).failure ==
      Some(if last.None? then NoBuildResult else NoBaselinePid)
  {
    var plan := SessionEnd(None, last, reuseDaemon) + [Call(CloseClientAt, CloseClient)];
    var checks := plan[1..];
    assert plan[0] == Call(StopSessionAt, StopSession);
    assert checks[0] == RequireResult(last.Some?);
    if last.Some? {
      var verify := checks[1..];
      assert verify[0] == VerifyPid(None, last.value, reuseDaemon);
      assert Execute(verify, None).failure == Some(NoBaselinePid);
    }
  }

  /** With a baseline pid, the session stop, the null check on a present result, a failing
      final daemon check and the client close stop at the check: the session is stopped
      first and the client is never closed. */
  lemma FinalCheckStops(baseline: Pid, last: Pid, reuseDaemon: bool)
    requires CheckPid(Some(baseline), last, reuseDaemon).Some?
    ensures Execute(SessionEnd(Some(baseline), Some(last), reuseDaemon) + [Call(CloseClientAt, CloseClient)], None) ==
      Partial([StopSession, PidChecked(Some(baseline), last)], CheckPid(Some(baseline), last, reuseDaemon))
  {
    var plan := SessionEnd(Some(baseline), Some(last), reuseDaemon) + [Call(CloseClientAt, CloseClient)];
    var checks := plan[1..];
    var verify := checks[1..];
    assert plan[0] == Call(StopSessionAt, StopSession);
    assert checks[0] == RequireResult(true);
    assert verify[0] == VerifyPid(Some(baseline), last, reuseDaemon);
    var failure := CheckPid(Some(baseline), last, reuseDaemon);
    assert Execute(verify, None) == Partial([PidChecked(Some(baseline), last)], failure);
    assert Execute(checks, None) == Partial([] + [PidChecked(Some(baseline), last)], failure);
  }

  /** When every warm-up daemon check passes and no collaborator fails, everything up to
      the end of the measured builds runs to its end. */
  lemma UpToSessionStopPasses(cfg: Config, o: Oracle)
    requires o.failAt.None? && WarmUpChecksPass(cfg, o)
    ensures Execute(Prologue(cfg, o) + MeasurePhase(cfg, o).actions, o.failAt).failure.None?
  {
    var head := Prologue(cfg, o) + MeasurePhase(cfg, o).actions;
    forall a | a in head ensures FailureOf(a, o.failAt).None? {
      if a in WarmUpPhase(cfg, o).actions {
        WarmUpPhaseActions(cfg, o, a);
        var j :| 1 <= j <= cfg.warmUpCount && a in WarmUpIteration(cfg, o, j, WarmUpBaseline(o, j));
        WarmUpActionPasses(cfg, o, j, a);
      } else if a in MeasurePhase(cfg, o).actions {
        MeasureLoopActions(cfg, o, 1, WarmUpPhase(cfg, o).last, a);
        var j :| 1 <= j <= cfg.buildCount && a in MeasureIteration(cfg, o, j);
        MeasureActionPasses(cfg, o, j, a);
      }
    }
    HeadPasses(head, o.failAt);
  }

  /** The guarded part of a run whose only failing daemon check is the final one: it runs
      every build, stops the session, makes the final check and stops there. */
  lemma BodyStopsAtFinalCheck(cfg: Config, o: Oracle)
    requires o.failAt.None? && cfg.warmUpCount > 0 && WarmUpChecksPass(cfg, o)
    requires !DaemonAccepted(cfg, o.pidOf(WarmUp, 1), LastPid(cfg, o).value)
    ensures Execute(BodyPlan(cfg, o), o.failAt) ==
      Partial(Trace(Prologue(cfg, o)) + Trace(MeasurePhase(cfg, o).actions)
                + [StopSession, PidChecked(FirstWarmUpPid(cfg, o), LastPid(cfg, o).value)],
              Some(if cfg.reuseDaemon then MultipleDaemons else DaemonReused))
  {
    var head := Prologue(cfg, o) + MeasurePhase(cfg, o).actions;
    var epilogue := Epilogue(cfg, o);
    assert BodyPlan(cfg, o) == head + epilogue;
    PhaseResults(cfg, o);
    UpToSessionStopPasses(cfg, o);
    ExecuteComplete(head, o.failAt);
    TraceAppend(Prologue(cfg, o), MeasurePhase(cfg, o).actions);
    FinalCheckStops(o.pidOf(WarmUp, 1), LastPid(cfg, o).value, cfg.reuseDaemon);
    ExecuteAppend(head, epilogue, o.failAt);
  }

  /** A run that fails only at its final daemon check has already stopped the profiler
      session, because the session is stopped before that check: the run is every phase up
      to the measured builds, then the session stop and the failing check, then the
      cleanup calls, and the client is never closed. */
  lemma FinalCheckFailure(cfg: Config, o: Oracle)
    requires o.failAt.None? && cfg.warmUpCount > 0 && WarmUpChecksPass(cfg, o)
    requires !DaemonAccepted(cfg, o.pidOf(WarmUp, 1), LastPid(cfg, o).value)
    ensures Run(cfg, o).outcome == Failed(if cfg.reuseDaemon then MultipleDaemons else DaemonReused)
    ensures Run(cfg, o).trace ==
      ThroughMeasuredBuilds(cfg, o)
      + [StopSession, PidChecked(FirstWarmUpPid(cfg, o), LastPid(cfg, o).value)]
      + CleanupEvents
  {
    BodyStopsAtFinalCheck(cfg, o);
    OpenedRun(cfg, o);
    CleanupExecution(o.failAt);
    PhaseTraces(cfg, o);
    Regroup(Trace(Prologue(cfg, o)), Trace(WarmUpPhase(cfg, o).actions),
            [CreateController(FirstWarmUpPid(cfg, o)), StartSession],
            Trace(MeasurePhase(cfg, o).actions),
            [StopSession, PidChecked(FirstWarmUpPid(cfg, o), LastPid(cfg, o).value)], CleanupEvents);
  }

  /** Warm-up iterations `i` to `j`, each with the events `WarmUpSteps` gives it. */
  function WarmUpStepsFrom(cfg: Config, o: Oracle, i: nat, j: nat): seq<Event>
    decreases j - i
  {
    if i > j then [] else WarmUpSteps(cfg, o, i) + WarmUpStepsFrom(cfg, o, i + 1, j)
  }

  /** An event of warm-up iterations `i` to `j` is an event of one of them. */
  lemma {:induction false} WarmUpStepsFromMember(cfg: Config, o: Oracle, i: nat, j: nat, e: Event)
    ensures e in WarmUpStepsFrom(cfg, o, i, j) <==> exists k :: i <= k <= j && e in WarmUpSteps(cfg, o, k)
    decreases j - i
  {
    if i <= j {
      WarmUpStepsFromMember(cfg, o, i + 1, j, e);
    }
  }

  /** Warm-up iterations `1` to `j` run warm-up builds `1` to `j` and hand over their
      results, and they neither create the controller nor start the session nor run any
      measured build. */
  lemma WarmUpStepsFromMarks(cfg: Config, o: Oracle, j: nat)
    ensures forall k: nat :: Deliver(WarmUp, k) in WarmUpStepsFrom(cfg, o, 1, j) <==> 1 <= k <= j
    ensures forall k: nat :: RunBuild(WarmUp, k, BaseInvoker) in WarmUpStepsFrom(cfg, o, 1, j) <==> 1 <= k <= j
    ensures forall e :: e in WarmUpStepsFrom(cfg, o, 1, j) && e.RunBuild? ==> e.phase == WarmUp && 1 <= e.iteration <= j
    ensures StartSession !in WarmUpStepsFrom(cfg, o, 1, j)
    ensures forall b :: CreateController(b) !in WarmUpStepsFrom(cfg, o, 1, j)
  {
    var span := WarmUpStepsFrom(cfg, o, 1, j);
    forall e | e in span
      ensures !e.StartSession? && !e.CreateController?
      ensures e.RunBuild? ==> e.phase == WarmUp && 1 <= e.iteration <= j
      ensures e.Deliver? ==> 1 <= e.iteration <= j
    {
      WarmUpStepsFromMember(cfg, o, 1, j, e);
      var k :| 1 <= k <= j && e in WarmUpSteps(cfg, o, k);
    }
    forall k: nat | 1 <= k <= j
      ensures Deliver(WarmUp, k) in span && RunBuild(WarmUp, k, BaseInvoker) in span
    {
      WarmUpStepsFromMember(cfg, o, 1, j, Deliver(WarmUp, k));
      WarmUpStepsFromMember(cfg, o, 1, j, RunBuild(WarmUp, k, BaseInvoker));
      assert Deliver(WarmUp, k) in WarmUpSteps(cfg, o, k);
      assert RunBuild(WarmUp, k, BaseInvoker) in WarmUpSteps(cfg, o, k);
    }
  }

  /** Warm-up iteration `i`, run with the baseline it starts with, runs to its end when its
      daemon check, if it has one, passes and no collaborator fails. */
  lemma WarmUpIterationRuns(cfg: Config, o: Oracle, i: nat)
    requires o.failAt.None? && 1 <= i
    requires i >= 2 ==> DaemonAccepted(cfg, o.pidOf(WarmUp, 1), o.pidOf(WarmUp, i))
    ensures Execute(WarmUpIteration(cfg, o, i, WarmUpBaseline(o, i)), o.failAt) == Partial(WarmUpSteps(cfg, o, i), None)
  {
    var plan := WarmUpIteration(cfg, o, i, WarmUpBaseline(o, i));
    HeadPasses(plan, o.failAt);
    ExecuteComplete(plan, o.failAt);
    WarmUpIterationTrace(cfg, o, i);
  }

  /** Warm-up iteration `j >= 2` whose daemon check fails produces all its events, the check
      included, and stops with the check's failure. */
  lemma WarmUpIterationFailsCheck(cfg: Config, o: Oracle, j: nat)
    requires o.failAt.None? && 2 <= j
    requires !DaemonAccepted(cfg, o.pidOf(WarmUp, 1), o.pidOf(WarmUp, j))
    ensures Execute(WarmUpIteration(cfg, o, j, WarmUpBaseline(o, j)), o.failAt) ==
      Partial(WarmUpSteps(cfg, o, j), Some(if cfg.reuseDaemon then MultipleDaemons else DaemonReused))
  {
    var pre := BeforeBuildSteps(cfg, WarmUp, j)
      + [Call(BuildAt(WarmUp, j), RunBuild(WarmUp, j, BaseInvoker)), Note(Deliver(WarmUp, j))];
    var check := VerifyPid(Some(o.pidOf(WarmUp, 1)), o.pidOf(WarmUp, j), cfg.reuseDaemon);
    assert WarmUpIteration(cfg, o, j, WarmUpBaseline(o, j)) == pre + [check];
    HeadPasses(pre, o.failAt);
    ExecuteComplete(pre, o.failAt);
    assert Execute([check], o.failAt) ==
      Partial([PidChecked(Some(o.pidOf(WarmUp, 1)), o.pidOf(WarmUp, j))], CheckPid(Some(o.pidOf(WarmUp, 1)), o.pidOf(WarmUp, j), cfg.reuseDaemon));
    ExecuteAppend(pre, [check], o.failAt);
    TraceAppend(pre, [check]);
    TraceSingle(check);
    WarmUpIterationTrace(cfg, o, j);
  }

  /** The warm-up loop from iteration `i`, when the daemon checks pass up to build `j` and
      fail at it, runs iterations `i` to `j` and stops at `j`'s check. */
  lemma {:induction false} WarmUpLoopStopsAtCheck(cfg: Config, o: Oracle, i: nat, last: Option<Pid>, j: nat)
    requires o.failAt.None? && 1 <= i <= j && 2 <= j
    requires WarmUpChecksPassBefore(cfg, o, j) && !DaemonAccepted(cfg, o.pidOf(WarmUp, 1), o.pidOf(WarmUp, j))
    requires j <= cfg.warmUpCount
    ensures Execute(WarmUpLoop(cfg, o, i, WarmUpBaseline(o, i), last).actions, o.failAt) ==
      Partial(WarmUpStepsFrom(cfg, o, i, j), Some(if cfg.reuseDaemon then MultipleDaemons else DaemonReused))
    decreases j - i
  {
    var baseline := WarmUpBaseline(o, i);
    var pid := o.pidOf(WarmUp, i);
    var head := WarmUpIteration(cfg, o, i, baseline);
    var rest := WarmUpLoop(cfg, o, i + 1, NextBaseline(baseline, pid), Some(pid)).actions;
    assert WarmUpLoop(cfg, o, i, baseline, last).actions == head + rest;
    ExecuteAppend(head, rest, o.failAt);
    if i < j {
      assert NextBaseline(baseline, pid) == WarmUpBaseline(o, i + 1);
      WarmUpIterationRuns(cfg, o, i);
      WarmUpLoopStopsAtCheck(cfg, o, i + 1, Some(pid), j);
    } else {
      WarmUpIterationFailsCheck(cfg, o, j);
      assert WarmUpStepsFrom(cfg, o, j, j) == WarmUpSteps(cfg, o, j) + [];
    }
  }

  /** The guarded part of a run whose warm-up daemon checks pass up to build `j` and fail
      at it: the scenario start, then warm-up iterations `1` to `j`, and nothing more. */
  lemma BodyStopsAtWarmUpCheck(cfg: Config, o: Oracle, j: nat)
    requires o.failAt.None? && 2 <= j <= cfg.warmUpCount
    requires WarmUpChecksPassBefore(cfg, o, j) && !DaemonAccepted(cfg, o.pidOf(WarmUp, 1), o.pidOf(WarmUp, j))
    ensures Execute(BodyPlan(cfg, o), o.failAt) ==
      Partial([BeforeScenario] + WarmUpStepsFrom(cfg, o, 1, j), Some(if cfg.reuseDaemon then MultipleDaemons else DaemonReused))
  {
    var start := [Call(BeforeScenarioAt, BeforeScenario)];
    var warm := WarmUpPhase(cfg, o).actions;
    var after := [Note(CreateController(WarmUpPhase(cfg, o).baseline)), Call(StartSessionAt, StartSession)]
      + MeasurePhase(cfg, o).actions + Epilogue(cfg, o);
    assert BodyPlan(cfg, o) == start + (warm + after);
    assert WarmUpBaseline(o, 1) == None;
    WarmUpLoopStopsAtCheck(cfg, o, 1, None, j);
    ExecuteAppend(warm, after, o.failAt);
    assert Execute(start, o.failAt) == Partial([BeforeScenario], None);
    ExecuteAppend(start, warm + after, o.failAt);
  }

  /** The marks `WarmUpCheckFailure` promises of a run's events: warm-up results `1` to
      `j` handed over, warm-up builds `1` to `j` the only builds, no session started and no
      controller created. */
  ghost predicate StoppedInWarmUp(t: seq<Event>, j: nat)
  {
    && (forall k: nat :: Deliver(WarmUp, k) in t <==> 1 <= k <= j)
    && (forall e :: e in t && e.RunBuild? ==> e.phase == WarmUp && 1 <= e.iteration <= j)
    && StartSession !in t
    && (forall b :: CreateController(b) !in t)
  }

  /** The opening events, the scenario start and the cleanup events add none of the marks. */
  lemma FramedWarmUp(span: seq<Event>, j: nat)
    requires StoppedInWarmUp(span, j)
    ensures StoppedInWarmUp([StopDaemon, OpenConnection, BeforeScenario] + span + CleanupEvents, j)
  {
    var t := [StopDaemon, OpenConnection, BeforeScenario] + span + CleanupEvents;
    assert forall e :: e in t <==>
      e == StopDaemon || e == OpenConnection || e == BeforeScenario || e in span || e == AfterScenario || e == CloseConnection;
  }

  /** The events and outcome of a run whose warm-up daemon checks pass up to build `j` and
      fail at it. */
  lemma WarmUpCheckRun(cfg: Config, o: Oracle, j: nat)
    requires o.failAt.None? && 2 <= j <= cfg.warmUpCount
    requires WarmUpChecksPassBefore(cfg, o, j) && !DaemonAccepted(cfg, o.pidOf(WarmUp, 1), o.pidOf(WarmUp, j))
    ensures Run(cfg, o).outcome == Failed(if cfg.reuseDaemon then MultipleDaemons else DaemonReused)
    ensures Run(cfg, o).trace ==
      [StopDaemon, OpenConnection, BeforeScenario] + WarmUpStepsFrom(cfg, o, 1, j) + CleanupEvents
  {
    BodyStopsAtWarmUpCheck(cfg, o, j);
    OpenedRun(cfg, o);
    CleanupExecution(o.failAt);
    var cleanup := Execute(CleanupPlan, o.failAt);
    assert cleanup.failure.None? && cleanup.events == CleanupEvents;
    StartRegroup(WarmUpStepsFrom(cfg, o, 1, j));
  }

  lemma StartRegroup(span: seq<Event>)
    ensures [StopDaemon, OpenConnection] + ([BeforeScenario] + span) + CleanupEvents ==
      [StopDaemon, OpenConnection, BeforeScenario] + span + CleanupEvents
  {
  }

  /** A run whose warm-up daemon checks pass up to build `j` and fail at it: every warm-up
      build up to `j` has run and had its result handed over before the failing check,
      nothing after that check runs but the cleanup calls, and so no controller is
      created, no session is started and no measured build runs. */
  lemma WarmUpCheckFailure(cfg: Config, o: Oracle, j: nat)
    requires o.failAt.None? && 2 <= j <= cfg.warmUpCount
    requires WarmUpChecksPassBefore(cfg, o, j) && !DaemonAccepted(cfg, o.pidOf(WarmUp, 1), o.pidOf(WarmUp, j))
    ensures Run(cfg, o).outcome == Failed(if cfg.reuseDaemon then MultipleDaemons else DaemonReused)
    ensures Run(cfg, o).trace ==
      [StopDaemon, OpenConnection, BeforeScenario] + WarmUpStepsFrom(cfg, o, 1, j) + CleanupEvents
    ensures StoppedInWarmUp(Run(cfg, o).trace, j)
  {
    WarmUpCheckRun(cfg, o, j);
    WarmUpStepsFromMarks(cfg, o, j);
    FramedWarmUp(WarmUpStepsFrom(cfg, o, 1, j), j);
  }

  /** The cleanup events up to and including the failing cleanup call at `s`. */
  function CleanupThrough(s: Site): seq<Event>
  {
    if s == AfterScenarioAt then [AfterScenario]
    else if s == CloseConnectionAt then [AfterScenario, CloseConnection]
    else CleanupEvents
  }

  /** No action of the session end calls a cleanup site. */
  lemma EpilogueSites(cfg: Config, o: Oracle, a: Action, s: Site)
    requires CleanupSite(s) && a in Epilogue(cfg, o)
    ensures FailureOf(a, Some(s)) == FailureOf(a, None)
  {
  }

  /** The site of no action of the guarded part is a cleanup site, so a failing cleanup
      call leaves the guarded part to run as it would with no failing collaborator. */
  lemma BodyIgnoresCleanupSite(cfg: Config, o: Oracle, s: Site)
    requires CleanupSite(s)
    ensures Execute(BodyPlan(cfg, o), Some(s)) == Execute(BodyPlan(cfg, o), None)
  {
    forall a | a in BodyPlan(cfg, o) ensures FailureOf(a, Some(s)) == FailureOf(a, None) {
      BodyActions(cfg, o, a);
      if exists j :: 1 <= j <= cfg.warmUpCount && a in WarmUpIteration(cfg, o, j, WarmUpBaseline(o, j)) {
        var j :| 1 <= j <= cfg.warmUpCount && a in WarmUpIteration(cfg, o, j, WarmUpBaseline(o, j));
        if a.Call? { WarmUpIterationCalls(cfg, o, j, WarmUpBaseline(o, j), a); }
      } else if exists j :: 1 <= j <= cfg.buildCount && a in MeasureIteration(cfg, o, j) {
        var j :| 1 <= j <= cfg.buildCount && a in MeasureIteration(cfg, o, j);
        if a.Call? { MeasureIterationCalls(cfg, o, j, a); }
      } else if a in Epilogue(cfg, o) {
        EpilogueSites(cfg, o, a, s);
      }
    }
    ExecuteSameFailures(BodyPlan(cfg, o), Some(s), None);
  }

  /** A failing cleanup call decides the outcome whatever the guarded part did; the guarded
      part ran as it would have with no failing collaborator, and the run ends with the
      cleanup calls up to and including the failing one: a failing `afterScenario` leaves the
      connection open and the daemon running, a failing close leaves the daemon running. */
  lemma CleanupFailure(cfg: Config, o: Oracle, s: Site)
    requires ConnectionOpened(cfg, o) && o.failAt == Some(s) && CleanupSite(s)
    ensures Run(cfg, o).outcome == Failed(CollaboratorFailed(s))
    ensures Run(cfg, o).trace ==
      [StopDaemon, OpenConnection] + Execute(BodyPlan(cfg, o), None).events + CleanupThrough(s)
  {
    OpenedRun(cfg, o);
    BodyIgnoresCleanupSite(cfg, o, s);
    assert CleanupPlan[1..][1..][1..] == [];
  }
}
