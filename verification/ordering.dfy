/** Where the events of each build iteration sit in the trace of a successful run: every
    iteration's events appear together and in the order the loop bodies produce them. */
module Ordering {
  import opened Optional
  import opened Events
  import opened Execution
  import opened Scenario
  import opened Origins
  import opened Session
  import opened Properties

  /** `block` sits in `t` starting at index `p`. */
  predicate OccursAt(t: seq<Event>, p: nat, block: seq<Event>)
  {
    p + |block| <= |t| && t[p..p + |block|] == block
  }

  lemma BlockLeft(a: seq<Event>, b: seq<Event>)
    ensures OccursAt(a + b, 0, a)
  {
    assert (a + b)[..|a|] == a;
  }

  lemma BlockShift(a: seq<Event>, b: seq<Event>, p: nat, block: seq<Event>)
    requires OccursAt(b, p, block)
    ensures OccursAt(a + b, |a| + p, block)
  {
    assert (a + b)[|a| + p..|a| + p + |block|] == b[p..p + |block|];
  }

  lemma BlockExtend(a: seq<Event>, b: seq<Event>, p: nat, block: seq<Event>)
    requires OccursAt(a, p, block)
    ensures OccursAt(a + b, p, block)
  {
    assert (a + b)[p..p + |block|] == a[p..p + |block|];
  }

  lemma BlockIndex(t: seq<Event>, p: nat, block: seq<Event>, k: nat)
    requires OccursAt(t, p, block) && k < |block|
    ensures t[p + k] == block[k]
  {
    assert t[p..p + |block|][k] == t[p + k];
  }

  /** The events of warm-up iteration `i`, in the order the loop body produces them: the
      cleanup, the build, the hand-over, then, from the second iteration on, the daemon
      check against the first warm-up build's pid. */
  function WarmUpSteps(cfg: Config, o: Oracle, i: nat): seq<Event>
  {
    (if DoesSomething(cfg) then [RunCleanup(WarmUp, i, BaseInvoker, BeforeBuild(cfg))] else [])
    + [RunBuild(WarmUp, i, BaseInvoker), Deliver(WarmUp, i)]
    + (if i >= 2 then [PidChecked(Some(o.pidOf(WarmUp, 1)), o.pidOf(WarmUp, i))] else [])
  }

  /** Warm-up iteration `i`, run with the baseline it starts with, produces exactly `WarmUpSteps`. */
  lemma WarmUpIterationTrace(cfg: Config, o: Oracle, i: nat)
    requires 1 <= i
    ensures Trace(WarmUpIteration(cfg, o, i, WarmUpBaseline(o, i))) == WarmUpSteps(cfg, o, i)
  {
    var baseline := WarmUpBaseline(o, i);
    var a := BeforeBuildSteps(cfg, WarmUp, i);
    var b := [Call(BuildAt(WarmUp, i), RunBuild(WarmUp, i, BaseInvoker)), Note(Deliver(WarmUp, i))];
    var c := if baseline.None? then [] else [VerifyPid(baseline, o.pidOf(WarmUp, i), cfg.reuseDaemon)];
    TraceAppend(a + b, c);
    TraceAppend(a, b);
    if DoesSomething(cfg) { TraceSingle(a[0]); }
    assert b[1..][1..] == [];
    if baseline.Some? { TraceSingle(c[0]); }
  }

  /** The events of the warm-up loop from `j`: iteration `j`'s, then the rest of the loop's. */
  lemma WarmUpLoopTrace(cfg: Config, o: Oracle, j: nat, baseline: Option<Pid>, last: Option<Pid>)
    requires j <= cfg.warmUpCount
    ensures Trace(WarmUpLoop(cfg, o, j, baseline, last).actions) ==
      (var pid := o.pidOf(WarmUp, j);
       Trace(WarmUpIteration(cfg, o, j, baseline))
       + Trace(WarmUpLoop(cfg, o, j + 1, NextBaseline(baseline, pid), Some(pid)).actions))
  {
    var pid := o.pidOf(WarmUp, j);
    TraceAppend(WarmUpIteration(cfg, o, j, baseline), WarmUpLoop(cfg, o, j + 1, NextBaseline(baseline, pid), Some(pid)).actions);
  }

  /** The events of the measured loop from `j`: iteration `j`'s, then the rest of the loop's. */
  lemma MeasureLoopTrace(cfg: Config, o: Oracle, j: nat, last: Option<Pid>)
    requires j <= cfg.buildCount
    ensures Trace(MeasureLoop(cfg, o, j, last).actions) ==
      Trace(MeasureIteration(cfg, o, j)) + Trace(MeasureLoop(cfg, o, j + 1, Some(o.pidOf(Measure, j))).actions)
  {
    TraceAppend(MeasureIteration(cfg, o, j), MeasureLoop(cfg, o, j + 1, Some(o.pidOf(Measure, j))).actions);
  }

  /** The warm-up loop from `j` holds warm-up iteration `i` as one block, for every `i` from `j` on. */
  lemma {:induction false} WarmUpLoopBlock(cfg: Config, o: Oracle, j: nat, last: Option<Pid>, i: nat) returns (p: nat)
    requires 1 <= j <= i <= cfg.warmUpCount
    ensures OccursAt(Trace(WarmUpLoop(cfg, o, j, WarmUpBaseline(o, j), last).actions), p,
                     Trace(WarmUpIteration(cfg, o, i, WarmUpBaseline(o, i))))
    decreases i - j
  {
    var baseline := WarmUpBaseline(o, j);
    var pid := o.pidOf(WarmUp, j);
    var head := WarmUpIteration(cfg, o, j, baseline);
    var rest := WarmUpLoop(cfg, o, j + 1, NextBaseline(baseline, pid), Some(pid)).actions;
    WarmUpLoopTrace(cfg, o, j, baseline, last);
    if j == i {
      BlockLeft(Trace(head), Trace(rest));
      p := 0;
    } else {
      assert NextBaseline(baseline, pid) == WarmUpBaseline(o, j + 1);
      var q := WarmUpLoopBlock(cfg, o, j + 1, Some(pid), i);
      BlockShift(Trace(head), Trace(rest), q, Trace(WarmUpIteration(cfg, o, i, WarmUpBaseline(o, i))));
      p := |Trace(head)| + q;
    }
  }

  /** The measured loop from `j` holds measured iteration `i` as one block, for every `i` from `j` on. */
  lemma {:induction false} MeasureLoopBlock(cfg: Config, o: Oracle, j: nat, last: Option<Pid>, i: nat) returns (p: nat)
    requires j <= i <= cfg.buildCount
    ensures OccursAt(Trace(MeasureLoop(cfg, o, j, last).actions), p, Trace(MeasureIteration(cfg, o, i)))
    decreases i - j
  {
    var head := MeasureIteration(cfg, o, j);
    var rest := MeasureLoop(cfg, o, j + 1, Some(o.pidOf(Measure, j))).actions;
    MeasureLoopTrace(cfg, o, j, last);
    if j == i {
      BlockLeft(Trace(head), Trace(rest));
      p := 0;
    } else {
      var q := MeasureLoopBlock(cfg, o, j + 1, Some(o.pidOf(Measure, j)), i);
      BlockShift(Trace(head), Trace(rest), q, Trace(MeasureIteration(cfg, o, i)));
      p := |Trace(head)| + q;
    }
  }

  /** A successful run is the opening, the whole guarded part and the whole cleanup. */
  lemma SuccessfulRunTrace(cfg: Config, o: Oracle)
    requires Run(cfg, o).outcome.Success?
    ensures Run(cfg, o).trace ==
      [StopDaemon, OpenConnection]
      + (Trace(Prologue(cfg, o)) + Trace(MeasurePhase(cfg, o).actions) + Trace(Epilogue(cfg, o)))
      + CleanupEvents
  {
    SuccessfulRunEvents(cfg, o, StopDaemon);
    OpenedRun(cfg, o);
    CleanupExecution(o.failAt);
    ExecuteComplete(BodyPlan(cfg, o), o.failAt);
    TraceAppend(Prologue(cfg, o) + MeasurePhase(cfg, o).actions, Epilogue(cfg, o));
    TraceAppend(Prologue(cfg, o), MeasurePhase(cfg, o).actions);
  }

  /** A block of the guarded part's events is a block of the whole run. */
  lemma BodyBlock(cfg: Config, o: Oracle, body: seq<Event>, p: nat, block: seq<Event>)
    requires Run(cfg, o).trace == [StopDaemon, OpenConnection] + body + CleanupEvents
    requires OccursAt(body, p, block)
    ensures OccursAt(Run(cfg, o).trace, 2 + p, block)
  {
    BlockShift([StopDaemon, OpenConnection], body, p, block);
    BlockExtend([StopDaemon, OpenConnection] + body, CleanupEvents, 2 + p, block);
  }

  /** A block of the middle part of a three-part sequence is a block of the whole. */
  lemma BlockMiddle(a: seq<Event>, b: seq<Event>, c: seq<Event>, q: nat, block: seq<Event>)
    requires OccursAt(b, q, block)
    ensures OccursAt(a + b + c, |a| + q, block)
  {
    BlockShift(a, b, q, block);
    BlockExtend(a + b, c, |a| + q, block);
  }

  /** Measured iteration `i`'s events sit together in the guarded part's events. */
  lemma BodyMeasuredBlock(cfg: Config, o: Oracle, i: nat) returns (p: nat)
    requires 1 <= i <= cfg.buildCount
    ensures OccursAt(Trace(Prologue(cfg, o)) + Trace(MeasurePhase(cfg, o).actions) + Trace(Epilogue(cfg, o)),
                     p, MeasuredSteps(cfg, o, i))
  {
    var prologue, measure, epilogue := Trace(Prologue(cfg, o)), Trace(MeasurePhase(cfg, o).actions), Trace(Epilogue(cfg, o));
    var q := MeasureLoopBlock(cfg, o, 1, WarmUpPhase(cfg, o).last, i);
    MeasureIterationTrace(cfg, o, i);
    BlockMiddle(prologue, measure, epilogue, q, MeasuredSteps(cfg, o, i));
    p := |prologue| + q;
  }

  lemma SuccessfulMeasuredBlock(cfg: Config, o: Oracle, i: nat) returns (p: nat)
    requires Run(cfg, o).outcome.Success? && 1 <= i <= cfg.buildCount
    ensures OccursAt(Run(cfg, o).trace, p, MeasuredSteps(cfg, o, i))
  {
    var q := BodyMeasuredBlock(cfg, o, i);
    SuccessfulRunTrace(cfg, o);
    BodyBlock(cfg, o, Trace(Prologue(cfg, o)) + Trace(MeasurePhase(cfg, o).actions) + Trace(Epilogue(cfg, o)), q, MeasuredSteps(cfg, o, i));
    p := 2 + q;
  }

  /** Warm-up iteration `i`'s events sit together inside the prologue. */
  lemma PrologueWarmUpBlock(cfg: Config, o: Oracle, i: nat) returns (p: nat)
    requires 1 <= i <= cfg.warmUpCount
    ensures OccursAt(Trace(Prologue(cfg, o)), p, WarmUpSteps(cfg, o, i))
  {
    var warm := WarmUpPhase(cfg, o).actions;
    var opening := [Call(BeforeScenarioAt, BeforeScenario)];
    var closing := [Note(CreateController(WarmUpPhase(cfg, o).baseline)), Call(StartSessionAt, StartSession)];
    TraceAppend(opening + warm, closing);
    TraceAppend(opening, warm);
    assert WarmUpBaseline(o, 1) == None;
    var q := WarmUpLoopBlock(cfg, o, 1, None, i);
    WarmUpIterationTrace(cfg, o, i);
    BlockShift(Trace(opening), Trace(warm), q, WarmUpSteps(cfg, o, i));
    BlockExtend(Trace(opening) + Trace(warm), Trace(closing), |Trace(opening)| + q, WarmUpSteps(cfg, o, i));
    p := |Trace(opening)| + q;
  }

  lemma SuccessfulWarmUpBlock(cfg: Config, o: Oracle, i: nat) returns (p: nat)
    requires Run(cfg, o).outcome.Success? && 1 <= i <= cfg.warmUpCount
    ensures OccursAt(Run(cfg, o).trace, p, WarmUpSteps(cfg, o, i))
  {
    var prologue := Trace(Prologue(cfg, o));
    var measure := Trace(MeasurePhase(cfg, o).actions);
    var epilogue := Trace(Epilogue(cfg, o));
    var steps := WarmUpSteps(cfg, o, i);
    var q := PrologueWarmUpBlock(cfg, o, i);
    BlockExtend(prologue, measure, q, steps);
    BlockExtend(prologue + measure, epilogue, q, steps);
    SuccessfulRunTrace(cfg, o);
    BodyBlock(cfg, o, prologue + measure + epilogue, q, steps);
    p := 2 + q;
  }

  /** Measured build `i` sits at index `q` of `t`: the recording it starts is right before
      it, the recording it stops, with its pid, right after it, its cleanup somewhere
      before it and the hand-over of its result somewhere after it. */
  predicate BuildWithRecording(cfg: Config, o: Oracle, t: seq<Event>, i: nat, q: nat)
  {
    && q < |t| && t[q] == RunBuild(Measure, i, InstrumentedInvoker)
    && ((i == 1 || DoesSomething(cfg)) ==> 1 <= q && t[q - 1] == StartRecording(i))
    && ((i == cfg.buildCount || DoesSomething(cfg)) ==> q + 1 < |t| && t[q + 1] == StopRecording(i, o.pidOf(Measure, i)))
    && (DoesSomething(cfg) ==> exists c :: 0 <= c < q && t[c] == RunCleanup(Measure, i, BaseInvoker, BeforeBuild(cfg)))
    && (exists d :: q < d < |t| && t[d] == Deliver(Measure, i))
  }

  /** Warm-up build `i` sits at index `q` of `t`, right after its cleanup and right before
      the hand-over of its result, which from the second build on is right before the
      daemon check of the build's pid against the first build's. */
  predicate WarmUpBuildAt(cfg: Config, o: Oracle, t: seq<Event>, i: nat, q: nat)
  {
    && q + 1 < |t| && t[q] == RunBuild(WarmUp, i, BaseInvoker)
    && t[q + 1] == Deliver(WarmUp, i)
    && (DoesSomething(cfg) ==> 1 <= q && t[q - 1] == RunCleanup(WarmUp, i, BaseInvoker, BeforeBuild(cfg)))
    && (i >= 2 ==> q + 2 < |t| && t[q + 2] == PidChecked(Some(o.pidOf(WarmUp, 1)), o.pidOf(WarmUp, i)))
  }

  /** In a successful run the events of each measured iteration appear together, in the
      order of the loop body: cleanup, recording start, build, recording stop, hand-over. */
  lemma MeasuredIterationInOrder(cfg: Config, o: Oracle, i: nat)
    requires Run(cfg, o).outcome.Success? && 1 <= i <= cfg.buildCount
    ensures exists p :: OccursAt(Run(cfg, o).trace, p, MeasuredSteps(cfg, o, i))
  {
    var p := SuccessfulMeasuredBlock(cfg, o, i);
  }

  /** The layout of a measured iteration's events puts its build, recordings, cleanup and
      hand-over where `BuildWithRecording` says. */
  lemma MeasuredStepsLayout(cfg: Config, o: Oracle, t: seq<Event>, p: nat, i: nat) returns (q: nat)
    requires OccursAt(t, p, MeasuredSteps(cfg, o, i))
    ensures BuildWithRecording(cfg, o, t, i, q)
  {
    var steps := MeasuredSteps(cfg, o, i);
    var c: nat := if DoesSomething(cfg) then 1 else 0;
    var s: nat := if i == 1 || DoesSomething(cfg) then 1 else 0;
    var e: nat := if i == cfg.buildCount || DoesSomething(cfg) then 1 else 0;
    assert |steps| == c + s + 1 + e + 1;
    assert steps[c + s] == RunBuild(Measure, i, InstrumentedInvoker);
    assert steps[c + s + 1 + e] == Deliver(Measure, i);
    q := p + c + s;
    BlockIndex(t, p, steps, c + s);
    BlockIndex(t, p, steps, c + s + 1 + e);
    if s == 1 {
      assert steps[c] == StartRecording(i);
      BlockIndex(t, p, steps, c);
    }
    if e == 1 {
      assert steps[c + s + 1] == StopRecording(i, o.pidOf(Measure, i));
      BlockIndex(t, p, steps, c + s + 1);
    }
    if c == 1 {
      assert steps[0] == RunCleanup(Measure, i, BaseInvoker, BeforeBuild(cfg));
      BlockIndex(t, p, steps, 0);
      assert t[p] == RunCleanup(Measure, i, BaseInvoker, BeforeBuild(cfg));
    }
    assert t[q + 1 + e] == Deliver(Measure, i);
  }

  /** The layout of a warm-up iteration's events puts its cleanup, build, hand-over and
      daemon check where `WarmUpBuildAt` says. */
  lemma WarmUpStepsLayout(cfg: Config, o: Oracle, t: seq<Event>, p: nat, i: nat) returns (q: nat)
    requires OccursAt(t, p, WarmUpSteps(cfg, o, i))
    ensures WarmUpBuildAt(cfg, o, t, i, q)
  {
    var steps := WarmUpSteps(cfg, o, i);
    var c: nat := if DoesSomething(cfg) then 1 else 0;
    assert steps[c] == RunBuild(WarmUp, i, BaseInvoker) && steps[c + 1] == Deliver(WarmUp, i);
    BlockIndex(t, p, steps, c);
    BlockIndex(t, p, steps, c + 1);
    if c == 1 {
      BlockIndex(t, p, steps, 0);
    }
    if i >= 2 {
      assert steps[c + 2] == PidChecked(Some(o.pidOf(WarmUp, 1)), o.pidOf(WarmUp, i));
      BlockIndex(t, p, steps, c + 2);
    }
    q := p + c;
  }

  /** In a successful run the recording that measured build `i` starts comes right before
      the build, the one it stops comes right after it with the build's pid, its cleanup
      comes before it and its result is handed over after it. */
  lemma RecordingAroundBuild(cfg: Config, o: Oracle, i: nat)
    requires Run(cfg, o).outcome.Success? && 1 <= i <= cfg.buildCount
    ensures exists q :: BuildWithRecording(cfg, o, Run(cfg, o).trace, i, q)
  {
    var p := SuccessfulMeasuredBlock(cfg, o, i);
    var q := MeasuredStepsLayout(cfg, o, Run(cfg, o).trace, p, i);
  }

  /** In a successful run the cleanup before warm-up build `i` comes right before the build,
      the build's result is handed over right after it, and the daemon check of a later
      build comes right after the hand-over. */
  lemma WarmUpCleanupBeforeBuild(cfg: Config, o: Oracle, i: nat)
    requires Run(cfg, o).outcome.Success? && 1 <= i <= cfg.warmUpCount
    ensures exists q :: WarmUpBuildAt(cfg, o, Run(cfg, o).trace, i, q)
  {
    var p := SuccessfulWarmUpBlock(cfg, o, i);
    var q := WarmUpStepsLayout(cfg, o, Run(cfg, o).trace, p, i);
  }

  /** A run's events up to the end of the measured builds, phase by phase: the daemon stop,
      the connection, the scenario hook, the warm-up builds, the controller creation with
      the first warm-up pid, the session start, then the measured builds. */
  function ThroughMeasuredBuilds(cfg: Config, o: Oracle): seq<Event>
  {
    [StopDaemon, OpenConnection, BeforeScenario]
    + Trace(WarmUpPhase(cfg, o).actions)
    + [CreateController(FirstWarmUpPid(cfg, o)), StartSession]
    + Trace(MeasurePhase(cfg, o).actions)
  }

  /** The warm-up phase produces exactly the events of the warm-up iterations. */
  lemma WarmUpPhaseEvents(cfg: Config, o: Oracle, e: Event)
    ensures e in Trace(WarmUpPhase(cfg, o).actions) <==>
      exists j :: 1 <= j <= cfg.warmUpCount && WarmUpEvent(cfg, o, j, e)
  {
    var plan := WarmUpPhase(cfg, o).actions;
    TraceMember(plan, e);
    if e in Trace(plan) {
      var a :| a in plan && e in EventsOf(a);
      WarmUpPhaseActions(cfg, o, a);
      var j :| 1 <= j <= cfg.warmUpCount && a in WarmUpIteration(cfg, o, j, WarmUpBaseline(o, j));
      WarmUpIterationEvents(cfg, o, j, e);
    }
    if exists j :: 1 <= j <= cfg.warmUpCount && WarmUpEvent(cfg, o, j, e) {
      var j :| 1 <= j <= cfg.warmUpCount && WarmUpEvent(cfg, o, j, e);
      WarmUpIterationEvents(cfg, o, j, e);
      var a :| a in WarmUpIteration(cfg, o, j, WarmUpBaseline(o, j)) && e in EventsOf(a);
      WarmUpPhaseActions(cfg, o, a);
    }
  }

  /** The measured phase produces exactly the events of the measured iterations. */
  lemma MeasurePhaseEvents(cfg: Config, o: Oracle, e: Event)
    ensures e in Trace(MeasurePhase(cfg, o).actions) <==>
      exists j :: 1 <= j <= cfg.buildCount && MeasureEvent(cfg, o, j, e)
  {
    var plan := MeasurePhase(cfg, o).actions;
    TraceMember(plan, e);
    if e in Trace(plan) {
      var a :| a in plan && e in EventsOf(a);
      MeasureLoopActions(cfg, o, 1, WarmUpPhase(cfg, o).last, a);
      var j :| 1 <= j <= cfg.buildCount && a in MeasureIteration(cfg, o, j);
      MeasureIterationEvents(cfg, o, j, e);
    }
    if exists j :: 1 <= j <= cfg.buildCount && MeasureEvent(cfg, o, j, e) {
      var j :| 1 <= j <= cfg.buildCount && MeasureEvent(cfg, o, j, e);
      MeasureIterationEvents(cfg, o, j, e);
      var a :| a in MeasureIteration(cfg, o, j) && e in EventsOf(a);
      MeasureLoopActions(cfg, o, 1, WarmUpPhase(cfg, o).last, a);
    }
  }

  /** A successful run goes through its phases in the order of the source: the opening
      calls, the scenario hook, every warm-up build, the controller creation with the
      first warm-up pid, the session start, every measured build, the session stop, the
      final daemon check on the last build, the client close, then the cleanup calls. */
  lemma PhasesInOrder(cfg: Config, o: Oracle)
    requires Run(cfg, o).outcome.Success?
    ensures LastPid(cfg, o).Some?
    ensures Run(cfg, o).trace ==
      ThroughMeasuredBuilds(cfg, o)
      + [StopSession, PidChecked(FirstWarmUpPid(cfg, o), LastPid(cfg, o).value), CloseClient]
      + CleanupEvents
  {
    SuccessfulRunCheckedDaemons(cfg, o);
    SuccessfulRunTrace(cfg, o);
    var ctrl := [CreateController(FirstWarmUpPid(cfg, o)), StartSession];
    PhaseTraces(cfg, o);
    Regroup(Trace(Prologue(cfg, o)), Trace(WarmUpPhase(cfg, o).actions), ctrl,
            Trace(MeasurePhase(cfg, o).actions), Trace(Epilogue(cfg, o)), CleanupEvents);
  }

  /** The guarded part's first and last events, with the loops' baseline and last result
      named by the pids they come from. */
  lemma PhaseTraces(cfg: Config, o: Oracle)
    ensures Trace(Prologue(cfg, o)) ==
      [BeforeScenario] + Trace(WarmUpPhase(cfg, o).actions) + [CreateController(FirstWarmUpPid(cfg, o)), StartSession]
    ensures LastPid(cfg, o).Some? ==>
      Trace(Epilogue(cfg, o)) == [StopSession, PidChecked(FirstWarmUpPid(cfg, o), LastPid(cfg, o).value), CloseClient]
  {
    PhaseResults(cfg, o);
    PrologueTrace(cfg, o);
    EpilogueTrace(cfg, o);
  }

  /** Regrouping the opening events, the prologue (the scenario hook, the warm-up events,
      the controller events), the measured events, the epilogue and the cleanup events. */
  lemma Regroup(p: seq<Event>, w: seq<Event>, ctrl: seq<Event>, m: seq<Event>, e: seq<Event>, c: seq<Event>)
    requires p == [BeforeScenario] + w + ctrl
    ensures [StopDaemon, OpenConnection] + (p + m + e) + c ==
      [StopDaemon, OpenConnection, BeforeScenario] + w + ctrl + m + e + c
  {
  }
}
