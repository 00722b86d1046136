/** The profiler session discipline: the session is started once, recordings are
    started and stopped only inside it and never overlap, and the session is stopped
    with no recording open. Every run keeps to it, and a successful run completes it. */
module Session {
  import opened Optional
  import opened Events
  import opened Execution
  import opened Scenario
  import opened Origins

  /** Where the profiler controller stands. */
  datatype SessionState = NotStarted | Open(recording: bool) | Ended

  /** The effect of one event on the controller; `None` when the event is not allowed there. */
  function Step(s: SessionState, e: Event): Option<SessionState>
  {
    match e
    case StartSession => if s == NotStarted then Some(Open(false)) else None
    case StartRecording(_) => if s == Open(false) then Some(Open(true)) else None
    case StopRecording(_, _) => if s == Open(true) then Some(Open(false)) else None
    case StopSession => if s == Open(false) then Some(Ended) else None
    case _ => Some(s)
  }

  /** The state after a whole trace, or `None` when some event of it is not allowed. */
  function Replay(t: seq<Event>, s: SessionState): Option<SessionState>
    decreases |t|
  {
    if |t| == 0 then Some(s)
    else
      match Step(s, t[0])
      case None => None
      case Some(next) => Replay(t[1..], next)
  }

  /** Events the controller does not see. */
  predicate Neutral(e: Event)
  {
    !(e.StartSession? || e.StopSession? || e.StartRecording? || e.StopRecording?)
  }

  /** An action all of whose events the controller does not see. */
  predicate Quiet(a: Action)
  {
    forall e :: e in EventsOf(a) ==> Neutral(e)
  }

  lemma {:induction false} ReplayAppend(a: seq<Event>, b: seq<Event>, s: SessionState)
    ensures Replay(a + b, s) ==
      (match Replay(a, s)
       case None => None
       case Some(m) => Replay(b, m))
    decreases |a|
  {
    if |a| == 0 {
      assert a + b == b;
    } else {
      ConsAppend(a, b);
      match Step(s, a[0])
      case None =>
      case Some(next) => ReplayAppend(a[1..], b, next);
    }
  }

  /** A trace the controller does not see leaves its state as it is. */
  lemma {:induction false} NeutralReplay(t: seq<Event>, s: SessionState)
    requires forall e :: e in t ==> Neutral(e)
    ensures Replay(t, s) == Some(s)
    decreases |t|
  {
    if |t| > 0 {
      assert t[0] in t;
      assert forall e :: e in t[1..] ==> e in t;
      NeutralReplay(t[1..], s);
    }
  }

  /** Every prefix of an allowed trace is allowed. */
  lemma ReplayPrefix(a: seq<Event>, b: seq<Event>, s: SessionState)
    requires a <= b && Replay(b, s).Some?
    ensures Replay(a, s).Some?
  {
    assert b == a + b[|a|..];
    ReplayAppend(a, b[|a|..], s);
  }

  /** Two allowed pieces make an allowed trace, ending where the second ends. */
  lemma ReplayThen(a: seq<Event>, b: seq<Event>, s: SessionState, m: SessionState, n: SessionState)
    requires Replay(a, s) == Some(m) && Replay(b, m) == Some(n)
    ensures Replay(a + b, s) == Some(n)
  {
    ReplayAppend(a, b, s);
  }

  /** The trace of a plan of quiet actions is neutral. */
  lemma QuietTrace(plan: seq<Action>)
    requires forall a :: a in plan ==> Quiet(a)
    ensures forall e :: e in Trace(plan) ==> Neutral(e)
  {
    forall e | e in Trace(plan) ensures Neutral(e) {
      TraceMember(plan, e);
    }
  }

  lemma WarmUpIterationQuiet(cfg: Config, o: Oracle, i: nat, baseline: Option<Pid>)
    ensures forall a :: a in WarmUpIteration(cfg, o, i, baseline) ==> Quiet(a)
  {
  }

  /** The warm-up phase does nothing the controller sees. */
  lemma WarmUpNeutral(cfg: Config, o: Oracle)
    ensures forall e :: e in Trace(WarmUpPhase(cfg, o).actions) ==> Neutral(e)
  {
    var warmUp := WarmUpPhase(cfg, o);
    forall a | a in warmUp.actions ensures Quiet(a) {
      WarmUpLoopActions(cfg, o, 1, None, None, a);
      if a in WarmUpIteration(cfg, o, 1, None) {
        WarmUpIterationQuiet(cfg, o, 1, None);
      } else {
        var j :| 1 < j <= cfg.warmUpCount && a in WarmUpIteration(cfg, o, j, Some(o.pidOf(WarmUp, 1)));
        WarmUpIterationQuiet(cfg, o, j, Some(o.pidOf(WarmUp, 1)));
      }
    }
    QuietTrace(warmUp.actions);
  }

  /** Whether a recording is open when measured iteration `i` begins: only after a
      first build whose recording was kept open because the cleanup does nothing. */
  predicate OpenBefore(cfg: Config, i: nat)
  {
    1 < i <= cfg.buildCount && !DoesSomething(cfg)
  }

  /** The events of measured iteration `i`, in the order the loop body produces them:
      the cleanup, the recording start, the build, the recording stop, the hand-over. */
  function MeasuredSteps(cfg: Config, o: Oracle, i: nat): seq<Event>
  {
    (if DoesSomething(cfg) then [RunCleanup(Measure, i, BaseInvoker, BeforeBuild(cfg))] else [])
    + (if i == 1 || DoesSomething(cfg) then [StartRecording(i)] else [])
    + [RunBuild(Measure, i, InstrumentedInvoker)]
    + (if i == cfg.buildCount || DoesSomething(cfg) then [StopRecording(i, o.pidOf(Measure, i))] else [])
    + [Deliver(Measure, i)]
  }

  /** Measured iteration `i` produces exactly `MeasuredSteps`. */
  lemma MeasureIterationTrace(cfg: Config, o: Oracle, i: nat)
    ensures Trace(MeasureIteration(cfg, o, i)) == MeasuredSteps(cfg, o, i)
  {
    var a := BeforeBuildSteps(cfg, Measure, i);
    var b := RecordingStartSteps(cfg, i);
    var c := [Call(BuildAt(Measure, i), RunBuild(Measure, i, InstrumentedInvoker))];
    var d := RecordingStopSteps(cfg, o, i);
    var e := [Note(Deliver(Measure, i))];
    TraceAppend(a + b + c + d, e);
    TraceAppend(a + b + c, d);
    TraceAppend(a + b, c);
    TraceAppend(a, b);
    if DoesSomething(cfg) { TraceSingle(a[0]); }
    if i == 1 || DoesSomething(cfg) { TraceSingle(b[0]); }
    TraceSingle(c[0]);
    if i == cfg.buildCount || DoesSomething(cfg) { TraceSingle(d[0]); }
    TraceSingle(e[0]);
  }

  lemma ReplaySingle(e: Event, s: SessionState)
    ensures Replay([e], s) == Step(s, e)
  {
    assert [e][1..] == [];
  }

  /** Measured iteration `i` starts a recording only when none is open, and leaves one
      open only when the next iteration neither exists nor does a cleanup. */
  lemma MeasureIterationReplay(cfg: Config, o: Oracle, i: nat)
    requires 1 <= i <= cfg.buildCount
    ensures Replay(Trace(MeasureIteration(cfg, o, i)), Open(OpenBefore(cfg, i))) == Some(Open(OpenBefore(cfg, i + 1)))
  {
    MeasureIterationTrace(cfg, o, i);
    var ds := DoesSomething(cfg);
    var starts := i == 1 || ds;
    var stops := i == cfg.buildCount || ds;
    var cleanup: seq<Event> := if ds then [RunCleanup(Measure, i, BaseInvoker, BeforeBuild(cfg))] else [];
    var start: seq<Event> := if starts then [StartRecording(i)] else [];
    var build := [RunBuild(Measure, i, InstrumentedInvoker)];
    var stop: seq<Event> := if stops then [StopRecording(i, o.pidOf(Measure, i))] else [];
    var deliver := [Deliver(Measure, i)];
    var before := Open(OpenBefore(cfg, i));
    var during := if starts then Open(true) else before;
    var after := Open(OpenBefore(cfg, i + 1));
    NeutralReplay(cleanup, before);
    assert Replay(start, before) == Some(during) by {
      if starts { ReplaySingle(StartRecording(i), before); }
    }
    NeutralReplay(build, during);
    assert Replay(stop, during) == Some(after) by {
      if stops { ReplaySingle(StopRecording(i, o.pidOf(Measure, i)), during); }
    }
    NeutralReplay(deliver, after);
    ReplayAppend(cleanup + start + build + stop, deliver, before);
    ReplayAppend(cleanup + start + build, stop, before);
    ReplayAppend(cleanup + start, build, before);
    ReplayAppend(cleanup, start, before);
  }

  /** Measured iteration `i` followed by a plan that closes what it leaves open. */
  lemma IterationThenReplay(cfg: Config, o: Oracle, i: nat, rest: seq<Action>)
    requires 1 <= i <= cfg.buildCount
    requires Replay(Trace(rest), Open(OpenBefore(cfg, i + 1))) == Some(Open(false))
    ensures Replay(Trace(MeasureIteration(cfg, o, i) + rest), Open(OpenBefore(cfg, i))) == Some(Open(false))
  {
    var iteration := MeasureIteration(cfg, o, i);
    TraceAppend(iteration, rest);
    MeasureIterationReplay(cfg, o, i);
    ReplayThen(Trace(iteration), Trace(rest), Open(OpenBefore(cfg, i)), Open(OpenBefore(cfg, i + 1)), Open(false));
  }

  /** Measured iterations `i` onwards leave no recording open. */
  lemma {:induction false} MeasureLoopReplay(cfg: Config, o: Oracle, i: nat, last: Option<Pid>)
    requires 1 <= i
    ensures Replay(Trace(MeasureLoop(cfg, o, i, last).actions), Open(OpenBefore(cfg, i))) == Some(Open(false))
    decreases cfg.buildCount + 1 - i
  {
    if i <= cfg.buildCount {
      var rest := MeasureLoop(cfg, o, i + 1, Some(o.pidOf(Measure, i))).actions;
      MeasureLoopReplay(cfg, o, i + 1, Some(o.pidOf(Measure, i)));
      IterationThenReplay(cfg, o, i, rest);
    }
  }

  /** The events of the part before the measured builds: the scenario hook, the warm-up
      builds, then the controller creation and the session start. */
  lemma PrologueTrace(cfg: Config, o: Oracle)
    ensures Trace(Prologue(cfg, o)) ==
      [BeforeScenario] + Trace(WarmUpPhase(cfg, o).actions) + [CreateController(WarmUpPhase(cfg, o).baseline), StartSession]
  {
    var warmUp := WarmUpPhase(cfg, o);
    var head := [Call(BeforeScenarioAt, BeforeScenario)];
    var tail := [Note(CreateController(warmUp.baseline)), Call(StartSessionAt, StartSession)];
    assert Prologue(cfg, o) == head + warmUp.actions + tail;
    TraceAppend(head + warmUp.actions, tail);
    TraceAppend(head, warmUp.actions);
    assert Trace(head) == [BeforeScenario];
    assert tail == [tail[0]] + [tail[1]];
    TraceAppend([tail[0]], [tail[1]]);
  }

  /** The part before the measured builds opens the session and nothing else. */
  lemma PrologueReplay(cfg: Config, o: Oracle)
    ensures Replay(Trace(Prologue(cfg, o)), NotStarted) == Some(Open(false))
  {
    var warmUp := WarmUpPhase(cfg, o);
    var head: seq<Event> := [BeforeScenario];
    var tail: seq<Event> := [CreateController(warmUp.baseline), StartSession];
    PrologueTrace(cfg, o);
    assert Trace(Prologue(cfg, o)) == head + Trace(warmUp.actions) + tail;
    ReplaySingle(BeforeScenario, NotStarted);
    assert tail == [tail[0]] + [tail[1]];
    ReplayAppend([tail[0]], [tail[1]], NotStarted);
    ReplaySingle(tail[0], NotStarted);
    ReplaySingle(tail[1], NotStarted);
    WarmUpNeutral(cfg, o);
    NeutralReplay(Trace(warmUp.actions), NotStarted);
    ReplayAppend(head, Trace(warmUp.actions), NotStarted);
    ReplayAppend(head + Trace(warmUp.actions), tail, NotStarted);
  }

  /** The events of the session stop and the final checks. */
  lemma SessionEndTrace(baseline: Option<Pid>, last: Option<Pid>, reuseDaemon: bool)
    ensures Trace(SessionEnd(baseline, last, reuseDaemon)) ==
      [StopSession] + (if last.Some? then [PidChecked(baseline, last.value)] else [])
  {
    var stop := Call(StopSessionAt, StopSession);
    var require := RequireResult(last.Some?);
    var check := FinalPidCheck(baseline, last, reuseDaemon);
    assert [stop, require] == [stop] + [require];
    TraceAppend([stop], [require]);
    TraceSingle(stop);
    TraceSingle(require);
    TraceAppend([stop, require], check);
    if last.Some? {
      TraceSingle(check[0]);
    }
  }

  /** The events of the part after the measured builds: the session stop, the final
      daemon check when there is a last result, then the client close. */
  lemma EpilogueTrace(cfg: Config, o: Oracle)
    ensures Trace(Epilogue(cfg, o)) ==
      (var last := MeasurePhase(cfg, o).last;
       [StopSession]
       + (if last.Some? then [PidChecked(WarmUpPhase(cfg, o).baseline, last.value)] else [])
       + [CloseClient])
  {
    var last := MeasurePhase(cfg, o).last;
    var baseline := WarmUpPhase(cfg, o).baseline;
    var end := SessionEnd(baseline, last, cfg.reuseDaemon);
    var close := [Call(CloseClientAt, CloseClient)];
    TraceAppend(end, close);
    TraceSingle(close[0]);
    SessionEndTrace(baseline, last, cfg.reuseDaemon);
  }

  /** The part after the measured builds ends the session. */
  lemma EpilogueReplay(cfg: Config, o: Oracle)
    ensures Replay(Trace(Epilogue(cfg, o)), Open(false)) == Some(Ended)
  {
    var last := MeasurePhase(cfg, o).last;
    var baseline := WarmUpPhase(cfg, o).baseline;
    var checked: seq<Event> := if last.Some? then [PidChecked(baseline, last.value)] else [];
    EpilogueTrace(cfg, o);
    ReplaySingle(StopSession, Open(false));
    NeutralReplay(checked, Ended);
    NeutralReplay([CloseClient], Ended);
    ReplayAppend([StopSession], checked, Open(false));
    ReplayAppend([StopSession] + checked, [CloseClient], Open(false));
  }

  /** The guarded part, run to its end, opens the session, keeps the recordings inside it and ends it. */
  lemma BodyReplay(cfg: Config, o: Oracle)
    ensures Replay(Trace(BodyPlan(cfg, o)), NotStarted) == Some(Ended)
  {
    var prologue := Prologue(cfg, o);
    var measure := MeasurePhase(cfg, o);
    var epilogue := Epilogue(cfg, o);
    TraceAppend(prologue, measure.actions);
    TraceAppend(prologue + measure.actions, epilogue);
    PrologueReplay(cfg, o);
    MeasureLoopReplay(cfg, o, 1, WarmUpPhase(cfg, o).last);
    EpilogueReplay(cfg, o);
    ReplayAppend(Trace(prologue), Trace(measure.actions), NotStarted);
    ReplayAppend(Trace(prologue) + Trace(measure.actions), Trace(epilogue), NotStarted);
  }

  /** The run's opening events, a prefix of an allowed guarded part and cleanup events
      the controller does not see make an allowed trace; a complete guarded part ends it. */
  lemma GuardedRunReplay(body: seq<Event>, full: seq<Event>, cleanup: seq<Event>)
    requires body <= full && Replay(full, NotStarted) == Some(Ended)
    requires cleanup <= CleanupEvents
    ensures Replay([StopDaemon, OpenConnection] + body + cleanup, NotStarted).Some?
    ensures body == full ==> Replay([StopDaemon, OpenConnection] + body + cleanup, NotStarted) == Some(Ended)
  {
    ReplayPrefix(body, full, NotStarted);
    var m := Replay(body, NotStarted).value;
    NeutralReplay([StopDaemon, OpenConnection], NotStarted);
    assert forall e :: e in cleanup ==> e in CleanupEvents;
    NeutralReplay(cleanup, m);
    ReplayThen([StopDaemon, OpenConnection], body, NotStarted, NotStarted, m);
    ReplayThen([StopDaemon, OpenConnection] + body, cleanup, NotStarted, m, m);
  }

  /** Every run keeps to the session discipline, however it ends, and a successful run
      ends its session with no recording open. */
  lemma SessionDiscipline(cfg: Config, o: Oracle)
    ensures Replay(Run(cfg, o).trace, NotStarted).Some?
    ensures Run(cfg, o).outcome.Success? ==> Replay(Run(cfg, o).trace, NotStarted) == Some(Ended)
  {
    if ConnectionOpened(cfg, o) {
      var body := Execute(BodyPlan(cfg, o), o.failAt);
      var cleanup := Execute(CleanupPlan, o.failAt);
      OpenedRun(cfg, o);
      ExecutePrefix(BodyPlan(cfg, o), o.failAt);
      ExecuteComplete(BodyPlan(cfg, o), o.failAt);
      BodyReplay(cfg, o);
      ExecutePrefix(CleanupPlan, o.failAt);
      CleanupTrace();
      GuardedRunReplay(body.events, Trace(BodyPlan(cfg, o)), cleanup.events);
    } else {
      UnopenedRun(cfg, o);
      NeutralReplay(Run(cfg, o).trace, NotStarted);
    }
  }

  /** What an allowed trace means: every recording event comes after the session was
      started (when it had not been) and before it is stopped. */
  lemma {:induction false} RecordingsInsideSession(t: seq<Event>, s: SessionState, k: nat)
    requires Replay(t, s).Some?
    requires k < |t| && (t[k].StartRecording? || t[k].StopRecording?)
    ensures s.NotStarted? ==> StartSession in t[..k]
    ensures !s.Ended? && StopSession !in t[..k]
    decreases |t|
  {
    var next := Step(s, t[0]).value;
    if k > 0 {
      RecordingsInsideSession(t[1..], next, k - 1);
      assert t[..k] == [t[0]] + t[1..][..k - 1];
    }
  }

  /** The number of recordings a trace starts. */
  function Starts(t: seq<Event>): nat
    decreases |t|
  {
    if |t| == 0 then 0 else (if t[0].StartRecording? then 1 else 0) + Starts(t[1..])
  }

  /** The number of recordings a trace stops. */
  function Stops(t: seq<Event>): nat
    decreases |t|
  {
    if |t| == 0 then 0 else (if t[0].StopRecording? then 1 else 0) + Stops(t[1..])
  }

  function OpenRecordings(s: SessionState): nat
  {
    if s == Open(true) then 1 else 0
  }

  /** An allowed trace starts as many recordings as it stops, up to the one open at either end. */
  lemma {:induction false} ReplayCounts(t: seq<Event>, s: SessionState)
    requires Replay(t, s).Some?
    ensures Starts(t) + OpenRecordings(s) == Stops(t) + OpenRecordings(Replay(t, s).value)
    decreases |t|
  {
    if |t| > 0 {
      ReplayCounts(t[1..], Step(s, t[0]).value);
    }
  }

  /** A successful run starts exactly as many recordings as it stops. */
  lemma SuccessfulRunBalancesRecordings(cfg: Config, o: Oracle)
    requires Run(cfg, o).outcome.Success?
    ensures Starts(Run(cfg, o).trace) == Stops(Run(cfg, o).trace)
  {
    SessionDiscipline(cfg, o);
    ReplayCounts(Run(cfg, o).trace, NotStarted);
  }
}
