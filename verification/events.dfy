/** What a scenario run can be observed to do, and how it can fail. */
module Events {
  import opened Optional

  /** A daemon process id as reported by the pid instrumentation. */
  type Pid = string

  datatype Phase = WarmUp | Measure

  /** The invoker a step goes through: the one built with the arguments of all
      builds, or the one derived from it with the instrumented-build arguments. */
  datatype InvokerKind = BaseInvoker | InstrumentedInvoker

  /** The action run before each build: the scenario's cleanup action, or that
      action wrapped so that it also stops the daemon. */
  datatype BeforeBuildAction =
    | CleanupAction(doesSomething: bool)
    | CleanupThenStopDaemon(doesSomething: bool)

  /** The collaborator calls that can fail, each named by where it happens. */
  datatype Site =
    | InitialStopAt
    | ConnectAt
    | BeforeScenarioAt
    | CleanupAt(phase: Phase, iteration: nat)
    | BuildAt(phase: Phase, iteration: nat)
    | StartSessionAt
    | StartRecordingAt(iteration: nat)
    | StopRecordingAt(iteration: nat)
    | StopSessionAt
    | CloseClientAt
    | AfterScenarioAt
    | CloseConnectionAt
    | FinalStopAt

  /** One observable step of a run, in the order it happens. */
  datatype Event =
    | StopDaemon
    | OpenConnection
    | BeforeScenario
    | RunCleanup(phase: Phase, iteration: nat, invoker: InvokerKind, action: BeforeBuildAction)
    | RunBuild(phase: Phase, iteration: nat, invoker: InvokerKind)
    | Deliver(phase: Phase, iteration: nat)
    | PidChecked(expected: Option<Pid>, actual: Pid)
    | CreateController(baseline: Option<Pid>)
    | StartSession
    | StartRecording(iteration: nat)
    | StopRecording(iteration: nat, pid: Pid)
    | StopSession
    | CloseClient
    | AfterScenario
    | CloseConnection

  datatype Failure =
    | ProfilingWithoutWarmUp
    | CollaboratorFailed(site: Site)
    | MultipleDaemons
    | DaemonReused
    | NoBuildResult
    | NoBaselinePid

  datatype Outcome = Success | Failed(failure: Failure)

  /** The daemon check: under the reuse policy the daemon must be the expected
      one, otherwise it must be a different one. A missing expected pid fails. */
  function CheckPid(expected: Option<Pid>, actual: Pid, reuseDaemon: bool): (r: Option<Failure>)
    ensures r.None? <==> expected.Some? && (reuseDaemon <==> expected.value == actual)
    ensures r == Some(NoBaselinePid) <==> expected.None?
    ensures r == Some(MultipleDaemons) <==> expected.Some? && reuseDaemon && expected.value != actual
    ensures r == Some(DaemonReused) <==> expected.Some? && !reuseDaemon && expected.value == actual
  {
    match expected
    case None => Some(NoBaselinePid)
    case Some(pid) =>
      if reuseDaemon then
        if pid != actual then Some(MultipleDaemons) else None
      else
        if pid == actual then Some(DaemonReused) else None
  }
}
