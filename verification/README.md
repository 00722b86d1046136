# Gradle scenario invoker, modelled in Dafny

This project models the scenario invocation engine of the Gradle profiler: the class
`GradleScenarioInvoker`, which runs one benchmark scenario against a Gradle build.

One run (`doRun`) goes through these steps in order:

1. It refuses to profile without warm-up builds.
2. It stops the daemon and opens a tooling-API connection.
3. It builds the JVM and Gradle argument lists for all builds, through chains of argument calculators.
4. It calls the mutator's `beforeScenario`.
5. It runs the warm-up builds. Each build is preceded by the before-build (cleanup) action when that action does something. The first warm-up build's daemon pid becomes the baseline, and every later warm-up build's pid is checked against it under the daemon-reuse policy.
6. It creates the profiler controller with that baseline.
7. It derives the instrumented-build argument lists.
8. It starts the profiler session.
9. It runs the measured builds through the instrumented invoker. A recording starts before the first build and stops after the last one; when the before-build action does something, a recording starts and stops around every build.
10. It stops the session, requires a last result and checks its pid against the baseline, then closes the client.
11. Whatever happened in steps 3 to 10, a `finally` block calls `afterScenario`, then closes the connection, then stops the daemon. If one of these three calls throws, the calls after it are skipped and its exception replaces any exception from steps 3 to 10.

`samplesFor` lists the samples each build reports. `checkPid` enforces the daemon policy: with reuse the pid must match the baseline, without reuse it must differ.

How the model is built:

- **Runs.** `Scenario.Run` is a pure function that computes the run as a sequence of `Event`s together with an `Outcome`.
- **Collaborators.** The daemon control, the Gradle client, the profiler controller and the mutator are replaced by an `Oracle`. The oracle gives the daemon pid each build reports, and the one collaborator call, if any, that throws.
- **Failures.** Every exception the method can raise becomes a `Failure` value.
- **Plans.** The guarded part of the run (the `try` block) is a plan of `Action`s. `Execution.Execute` runs a plan and stops at the first failing action, which is how Java exceptions propagate.
- **Cleanup.** The `finally` block is a separate plan. Once the connection is open, this plan always starts, and it stops at its first failing call like any other plan. A cleanup failure replaces the failure of the guarded part, as a throwing `finally` does in Java (`Failures.CleanupFailure`).
- **Profiler session.** `Session.Step` is a small state machine for the profiler controller. The model proves that every run keeps to it and that a successful run completes it.

Modules:

| module | contents |
|---|---|
| `Optional` | option type |
| `Samples` | `samplesFor` |
| `Arguments` | argument lists and calculator chains |
| `Events` | sites, events, failures, `checkPid` |
| `Execution` | plans and stop-at-first-failure execution |
| `Scenario` | the plans of `doRun` and `Run` itself |
| `Origins` | which action each event comes from |
| `Properties` | invoker, baseline, success and per-iteration properties |
| `Session` | the profiler session discipline |
| `Ordering` | the order of a run's phases, and where each iteration's events sit in a successful run |
| `Failures` | what a failing run did and did not do |

Behaviour of the code worth noting:

- **Which builds are checked.** Only these builds have their pid checked against the baseline: each warm-up build after the first, and the last build. Measured builds other than the last are never checked. So under the reuse policy, "every build uses the first daemon" holds only for the builds that are checked (`Properties.DaemonChecksPass`).
- **No reuse.** Without reuse, every warm-up build after the first must also run on a different daemon from the first one. The check is not made only after the measured builds.
- **Warm-up results.** Warm-up results go to the result consumer, exactly like measured results (line 122).
- **No warm-up builds.** A scenario without warm-up builds never succeeds, even when it is not profiled. The counts are Java `int`s and are not validated here, so a negative warm-up count also passes the profiling pre-flight, which only rejects a count of exactly zero, and then runs no warm-up build. The run fails at the null check on the last result when no build ran at all. Otherwise it fails at the final `checkPid`, whose baseline is null (`Failures.ZeroWarmUpOutcome`).
- **Session stop before the final check.** The session is stopped (line 177) before the null check and the final `checkPid` (lines 178-179). A run that fails its final daemon check has therefore already ended its profiler session, and only the client close is skipped (`Failures.FinalCheckFailure`).
- **No measured builds.** When there are no measured builds, the final check compares the last *warm-up* build's pid with the baseline.

## Model

All source paths are relative to the repository root.

| member | source | states |
|---|---|---|
| Samples.SamplesFor | src/main/java/org/gradle/profiler/GradleScenarioInvoker.java:34-44 | execution time comes first and only once, then the configuration time exactly when it is measured, then one sample per measured build operation in declaration order |
| Samples.SamplesForRoundTrip | src/main/java/org/gradle/profiler/GradleScenarioInvoker.java:34-44 | reading the build-operation samples back out of the sample list gives the scenario's measured operations, and the configuration-time sample is present exactly when configuration time is measured |
| Samples.OperationSamplesRoundTrip | src/main/java/org/gradle/profiler/GradleScenarioInvoker.java:40-42 | mapping the measured operations to samples loses nothing: the operations can be read back in order |
| Arguments.ApplyAppend | src/main/java/org/gradle/profiler/GradleScenarioInvoker.java:55-64 | applying a chain joined with `plus` applies the first chain, then the second, to the same list |
| Arguments.Plus | src/main/java/org/gradle/profiler/GradleScenarioInvoker.java:56-63 | `a.plus(b)` behaves on every list as `a` followed by `b` |
| Arguments.AppendOnlyChainKeepsPrefix | src/main/java/org/gradle/profiler/GradleScenarioInvoker.java:100 | a chain of calculators that only append keeps the list it is given as a prefix of its result |
| Arguments.SystemPropertyArgs | src/main/java/org/gradle/profiler/GradleScenarioInvoker.java:83-85 | one `-Dkey=value` argument per system property, in the map's order |
| Arguments.BaseJvmArgs | src/main/java/org/gradle/profiler/GradleScenarioInvoker.java:80-86 | the JVM arguments are the build configuration's, then the scenario's, then the system properties, then the scenario-name marker, from which the scenario name can be read back |
| Arguments.BaseGradleArgs | src/main/java/org/gradle/profiler/GradleScenarioInvoker.java:90-99 | the Gradle arguments start with the user-home flag and its value, then the system properties, then the scenario's arguments, and end with `--dry-run` exactly when it is a dry run |
| Arguments.AllBuildsGradleChain | src/main/java/org/gradle/profiler/GradleScenarioInvoker.java:55-64 | the all-builds Gradle calculator runs the pid instrumentation, then the profiler's calculator, then the build-operation instrumentation only when it needs an init script |
| Arguments.KeepsUserHome | src/main/java/org/gradle/profiler/GradleScenarioInvoker.java:90-100 | append-only calculators cannot move or change the Gradle user home at the front of the list |
| Arguments.ComputeArgs | src/main/java/org/gradle/profiler/GradleScenarioInvoker.java:80-147 | the all-builds JVM list is the profiler's JVM calculator applied to the base JVM arguments; the all-builds Gradle list is the pid instrumentation, then the profiler's Gradle calculator, then the build-operation instrumentation only when it needs an init script, applied to the base Gradle arguments; each instrumented list is the instrumented-builds calculator applied to the matching all-builds list; each instrumented list is logged exactly when it differs from the all-builds list; an identity instrumented calculator yields the all-builds list; with append-only calculators each list extends the one it starts from, and the user home is kept |
| Events.CheckPid | src/main/java/org/gradle/profiler/GradleScenarioInvoker.java:208-218 | the check passes exactly when there is a baseline and the daemon is the same under reuse or different without it; it reports multiple daemons, a reused daemon, or a missing baseline in exactly the matching cases |
| Execution.ExecuteReportsFirstFailure | src/main/java/org/gradle/profiler/GradleScenarioInvoker.java:77-180 | a run of steps reports the failure of its first failing step, and nothing when no step fails |
| Execution.ExecuteAttemptsUpToFailure | src/main/java/org/gradle/profiler/GradleScenarioInvoker.java:77-180 | the steps that take effect are exactly those up to and including the first failing one |
| Execution.ExecuteSucceedsIff | src/main/java/org/gradle/profiler/GradleScenarioInvoker.java:77-180 | a run of steps succeeds exactly when none of its steps fails |
| Execution.ExecuteAppend | src/main/java/org/gradle/profiler/GradleScenarioInvoker.java:77-180 | running two blocks one after the other is running the first, and the second only if the first did not fail |
| Scenario.WarmUpLoop | src/main/java/org/gradle/profiler/GradleScenarioInvoker.java:116-128 | after the warm-up loop the baseline is the first warm-up build's pid, if there was a warm-up build, and the last result is the last warm-up build's |
| Scenario.WarmUpLoopActions | src/main/java/org/gradle/profiler/GradleScenarioInvoker.java:119-128 | the warm-up loop runs iteration `i` with the baseline so far, then every later iteration with the first build's pid as baseline, and nothing else |
| Scenario.MeasureLoop | src/main/java/org/gradle/profiler/GradleScenarioInvoker.java:150-175 | after the measurement loop the last result is the last measured build's, or the warm-up's last result when there are no measured builds |
| Scenario.MeasureLoopMembers | src/main/java/org/gradle/profiler/GradleScenarioInvoker.java:150-175 | every step of the measurement loop belongs to exactly one iteration in range, identified by the step itself |
| Scenario.MeasureLoopActions | src/main/java/org/gradle/profiler/GradleScenarioInvoker.java:150-175 | the measurement loop consists of exactly the steps of iterations `i` to the build count |
| Scenario.Run | src/main/java/org/gradle/profiler/GradleScenarioInvoker.java:47-186 | profiling without warm-up fails before anything happens; otherwise the daemon is stopped first and the connection opened next; if either fails the run fails and the connection is never closed |
| Scenario.CleanupAlwaysRuns | src/main/java/org/gradle/profiler/GradleScenarioInvoker.java:181-185 | once the connection is open and no cleanup call fails, the run ends with `afterScenario`, connection close and daemon stop whatever the guarded part did, and the outcome is the guarded part's (a failing cleanup call: `Failures.CleanupFailure`) |
| Origins.PhaseResults | src/main/java/org/gradle/profiler/GradleScenarioInvoker.java:116-175 | the controller's baseline is the first warm-up pid, and the result of the final check is the last measured build's, falling back to the last warm-up build |
| Origins.BodyActions | src/main/java/org/gradle/profiler/GradleScenarioInvoker.java:114-180 | the guarded part is exactly the scenario hook, the warm-up iterations, controller creation, session start, the measured iterations and the final steps; their order is stated by `Ordering.PhasesInOrder` |
| Origins.RunEvents | src/main/java/org/gradle/profiler/GradleScenarioInvoker.java:69-185 | every event of a run is a daemon stop, the connection, a cleanup call or an event of the guarded part, and a successful run has all of them |
| Properties.InvokerRule | src/main/java/org/gradle/profiler/GradleScenarioInvoker.java:105-206 | cleanups run only when the before-build action does something, run that action and go through the base invoker; a build goes through the base invoker exactly when it is a warm-up build |
| Properties.BaselineRule | src/main/java/org/gradle/profiler/GradleScenarioInvoker.java:116-179 | the controller is created with, and every daemon check compares against, the first warm-up build's pid; that the controller is created after the warm-up builds is `Ordering.PhasesInOrder` |
| Properties.BodySucceedsIff | src/main/java/org/gradle/profiler/GradleScenarioInvoker.java:77-180 | with no failing collaborator the guarded part succeeds exactly when the daemon checks pass |
| Properties.SuccessCharacterization | src/main/java/org/gradle/profiler/GradleScenarioInvoker.java:47-185 | with no failing collaborator a run succeeds exactly when the pre-flight check and the daemon checks pass |
| Properties.SuccessfulRunCheckedDaemons | src/main/java/org/gradle/profiler/GradleScenarioInvoker.java:119-179 | a successful run had warm-up builds, checked every later warm-up pid and the last build's pid against the first, and all of these checks passed |
| Properties.StepBodyEvent | src/main/java/org/gradle/profiler/GradleScenarioInvoker.java:119-175 | an iteration's event belongs to the guarded part exactly when that iteration is in range and produces it |
| Properties.RecordingStarts | src/main/java/org/gradle/profiler/GradleScenarioInvoker.java:155-161 | a successful run contains a recording start for measured build `i` exactly when `i` is the first build or the before-build action does something (where it sits: `Ordering.RecordingAroundBuild`) |
| Properties.RecordingStops | src/main/java/org/gradle/profiler/GradleScenarioInvoker.java:165-171 | a successful run contains a recording stop for measured build `i`, with that build's pid, exactly when `i` is the last build or the before-build action does something (where it sits: `Ordering.RecordingAroundBuild`) |
| Properties.SuccessfulBuilds | src/main/java/org/gradle/profiler/GradleScenarioInvoker.java:119-175 | a successful run ran every warm-up build through the base invoker and every measured build through the instrumented one, and no other |
| Properties.SuccessfulDeliveries | src/main/java/org/gradle/profiler/GradleScenarioInvoker.java:119-175 | a successful run handed the result of every warm-up and measured build, and no other, to the consumer |
| Properties.SuccessfulCleanups | src/main/java/org/gradle/profiler/GradleScenarioInvoker.java:202-206 | a successful run contains a cleanup for each build of both phases exactly when the before-build action does something (where it sits: `Ordering.WarmUpCleanupBeforeBuild`, `Ordering.RecordingAroundBuild`) |
| Session.SessionDiscipline | src/main/java/org/gradle/profiler/GradleScenarioInvoker.java:149-185 | every run, failing or not, starts the session at most once, starts and stops recordings only inside it without overlap, and stops it with no recording open; a successful run does stop it |
| Session.RecordingsInsideSession | src/main/java/org/gradle/profiler/GradleScenarioInvoker.java:149-177 | in a trace the session allows, every recording start or stop comes after the session start and before the session stop |
| Session.ReplayCounts | src/main/java/org/gradle/profiler/GradleScenarioInvoker.java:155-171 | in a trace the session allows, the recordings started and stopped differ only by the recording open at either end |
| Session.SuccessfulRunBalancesRecordings | src/main/java/org/gradle/profiler/GradleScenarioInvoker.java:150-177 | a successful run stops exactly as many recordings as it starts |
| Failures.GuardedFailure | src/main/java/org/gradle/profiler/GradleScenarioInvoker.java:77-185 | a run failing at a call inside the `try` block failed at exactly that call, in the guarded part, and still ran the whole cleanup after it |
| Failures.MeasureLoopStops | src/main/java/org/gradle/profiler/GradleScenarioInvoker.java:150-175 | a measurement loop whose build `k` fails ran builds up to `k`, handed over the results before `k`, and failed there |
| Failures.MeasuredBuildFailure | src/main/java/org/gradle/profiler/GradleScenarioInvoker.java:150-185 | a run failing at measured build `k` handed over exactly the results of builds before `k` and ran no later build; it never stopped the session or closed the client; its cleanup ran in order |
| Failures.ClientClosedAfterChecks | src/main/java/org/gradle/profiler/GradleScenarioInvoker.java:177-180 | the client is closed only after the connection opened, every daemon check passed and the guarded part ran to its end |
| Failures.ZeroWarmUpOutcome | src/main/java/org/gradle/profiler/GradleScenarioInvoker.java:116-179 | with a warm-up count of zero or below, a run that passes the pre-flight with no failing collaborator fails: at the null check when no build ran, otherwise at the final daemon check for want of a baseline |
| Ordering.MeasuredIterationInOrder | src/main/java/org/gradle/profiler/GradleScenarioInvoker.java:150-175 | in a successful run the events of each measured iteration appear as one contiguous block in the order of the loop body: the cleanup when the before-build action does something, the recording start when required, the build through the instrumented invoker, the recording stop with the build's pid when required, the hand-over of its result |
| Ordering.RecordingAroundBuild | src/main/java/org/gradle/profiler/GradleScenarioInvoker.java:153-171 | in a successful run measured build `i` sits at a position with its recording start immediately before it and its recording stop, with its pid, immediately after it whenever these are required; its cleanup comes earlier and its result is handed over later |
| Ordering.WarmUpCleanupBeforeBuild | src/main/java/org/gradle/profiler/GradleScenarioInvoker.java:119-127 | in a successful run warm-up build `i` comes immediately after its cleanup, when the before-build action does something, and immediately before the hand-over of its result; from the second build on, the daemon check of the build's pid against the first build's comes immediately after that hand-over |
| Ordering.PhasesInOrder | src/main/java/org/gradle/profiler/GradleScenarioInvoker.java:114-185 | a successful run is, in this order: the daemon stop, the connection, `beforeScenario`, the warm-up builds' events, the controller creation with the first warm-up pid, the session start, the measured builds' events, the session stop, the final daemon check on the last build, the client close, then `afterScenario`, the connection close and the daemon stop |
| Ordering.WarmUpPhaseEvents | src/main/java/org/gradle/profiler/GradleScenarioInvoker.java:119-128 | the warm-up loop produces exactly the events of warm-up iterations 1 to the warm-up count |
| Ordering.MeasurePhaseEvents | src/main/java/org/gradle/profiler/GradleScenarioInvoker.java:150-175 | the measurement loop produces exactly the events of measured iterations 1 to the build count |
| Failures.WarmUpCheckFailure | src/main/java/org/gradle/profiler/GradleScenarioInvoker.java:114-185 | with no failing collaborator, a run whose warm-up daemon checks pass up to build `j` and fail at `j` reports multiple daemons under reuse and a reused daemon otherwise; its trace is the opening, `beforeScenario`, warm-up iterations 1 to `j` each with its cleanup, build, hand-over and check, then the cleanup calls; so the results of builds 1 to `j` and no others were handed over, no later build ran, and no controller was created and no session started |
| Failures.CleanupFailure | src/main/java/org/gradle/profiler/GradleScenarioInvoker.java:181-185 | once the connection is open, a failing cleanup call decides the outcome whatever the guarded part did; the guarded part runs as it would with no failing collaborator, and the run ends with the cleanup calls up to and including the failing one, so a failing `afterScenario` skips the connection close and the daemon stop, and a failing close skips the daemon stop |
| Failures.FinalCheckFailure | src/main/java/org/gradle/profiler/GradleScenarioInvoker.java:177-185 | with no failing collaborator and passing warm-up checks, a run whose final daemon check fails reports multiple daemons under reuse and a reused daemon otherwise; its trace is every phase up to the measured builds, then the session stop and the failing check, then the cleanup calls, so the session was stopped and the client never closed |

## Left out

- `Main.java` and `FlameGraphTool.java` are not part of this model. One is a legacy entry point and the other a process wrapper.
- Logging (`logJvmArgs`, `logGradleArgs`, `printVersionInfo`) is not modelled. Only whether an instrumented argument list would be logged is modelled.
- The `ScenarioContext` and `BuildContext` objects are not modelled. They only carry the phase and iteration number, which the events carry instead.
- Several calls that can throw are assumed not to. The oracle cannot make them fail, so a run that stops at one of them is not modelled:
  - `FileUtils.forceMkdir` (line 53) and the profiler's calculator factories (lines 54, 56). A failure there comes before the first daemon stop, so it would leave an empty trace.
  - `getBuildMutator().get()` and the `GradleConnector` set-up (lines 71-75). A failure there would leave the daemon stopped and the connection unopened.
  - `printVersionInfo` (line 78), the all-builds calculators (lines 87, 100), `getClient().create` (line 103), `newController` (line 130) and the instrumented-builds calculators (lines 133, 136). A failure there is inside the `try` block, so the cleanup would run after it.
- The warm-up and build counts are Java `int`s modelled as unbounded integers. A count of `Integer.MAX_VALUE` would make `iteration++` wrap around so that the loop never ends. The model assumes counts below `Integer.MAX_VALUE` and does not model the wrap-around.
- `runMeasured` and `runCleanup` belong to the superclass and are not part of this model. A measured step is modelled as the step followed by a `Deliver` event that hands its result to the consumer. The mutator's per-build hooks inside them are not modelled.
- The argument calculators, the pid instrumentation, the profiler and its controller, the daemon control and the mutator are left as opaque collaborators. Calculators are arbitrary list functions. Every other collaborator is summed up by the oracle, which supplies the reported pids and the one call that throws.
- `BuildOperationInstrumentation.requiresInitScript` and `CleanupThenStopDaemon.isDoesSomething` are inputs, because their classes are not part of this model.
- The argument lists are modelled as values. The model does not track that the Java lists are mutated in place and then shared with the invoker.
- A failing result consumer is not modelled. The consumer is called, but never throws.
- At most one collaborator call fails in a run, because the oracle names a single failing call. So a failure in the guarded part followed by a second failure in the cleanup is not modelled.
- Pids are opaque strings. Exception types and messages are reduced to the `Failure` cases.
- Failures.MeasuredBuildFailure: the detailed trace of a failing run is stated for a failure at a measured build, at a warm-up daemon check (`Failures.WarmUpCheckFailure`), at the final daemon check (`Failures.FinalCheckFailure`) and at a cleanup call (`Failures.CleanupFailure`). A failure at another call of the guarded part is covered only by `Failures.GuardedFailure`, and a failure before the connection opens only by `Scenario.Run`.
- Arguments.ComputeArgs: the prefix facts hold only for calculators that append. The code does not enforce this convention, so a calculator may rewrite the list.
