/** The JVM and Gradle argument lists every build of a scenario is launched with. */
module Arguments {
  import opened Optional

  /** An argument calculator rewrites an argument list; its internals are opaque. */
  type Calculator = seq<string> -> seq<string>

  /** Calculators joined with `plus`, applied first to last on the same list. */
  type Chain = seq<Calculator>

  function Apply(chain: Chain, args: seq<string>): seq<string>
    decreases |chain|
  {
    if |chain| == 0 then args else Apply(chain[1..], chain[0](args))
  }

  lemma {:induction false} ApplyAppend(a: Chain, b: Chain, args: seq<string>)
    ensures Apply(a + b, args) == Apply(b, Apply(a, args))
    decreases |a|
  {
    if |a| == 0 {
      assert a + b == b;
    } else {
      assert (a + b)[0] == a[0];
      assert (a + b)[1..] == a[1..] + b;
      ApplyAppend(a[1..], b, a[0](args));
    }
  }

  lemma ApplySingle(c: Calculator, args: seq<string>)
    ensures Apply([c], args) == c(args)
  {
    assert [c][1..] == [];
  }

  /** `a.plus(b)`: the combined calculator runs every calculator of `a`, then every one of `b`. */
  function Plus(a: Chain, b: Chain): (r: Chain)
    ensures |r| == |a| + |b|
    ensures forall args :: Apply(r, args) == Apply(b, Apply(a, args))
  {
    forall args ensures Apply(a + b, args) == Apply(b, Apply(a, args)) {
      ApplyAppend(a, b, args);
    }
    a + b
  }

  /** The convention calculators follow: they never remove what is already in the list. */
  ghost predicate AppendOnly(c: Calculator)
  {
    forall args :: args <= c(args)
  }

  ghost predicate AllAppendOnly(chain: Chain)
  {
    forall k :: 0 <= k < |chain| ==> AppendOnly(chain[k])
  }

  /** A chain of append-only calculators keeps its input list as a prefix. */
  lemma {:induction false} AppendOnlyChainKeepsPrefix(chain: Chain, args: seq<string>)
    requires AllAppendOnly(chain)
    ensures args <= Apply(chain, args)
    decreases |chain|
  {
    if |chain| > 0 {
      assert AppendOnly(chain[0]);
      assert args <= chain[0](args);
      assert AllAppendOnly(chain[1..]) by {
        forall k | 0 <= k < |chain[1..]| ensures AppendOnly(chain[1..][k]) {
          assert chain[1..][k] == chain[k + 1];
        }
      }
      AppendOnlyChainKeepsPrefix(chain[1..], chain[0](args));
    }
  }

  const GradleUserHomeFlag := "--gradle-user-home"
  const DryRunFlag := "--dry-run"
  const ScenarioMarker := "-Dorg.gradle.profiler.scenario="

  /** A `-Dkey=value` system-property argument. */
  function SystemPropertyArg(key: string, value: string): string
  {
    "-D" + key + "=" + value
  }

  /** The system-property arguments, in the iteration order of the scenario's property map. */
  function SystemPropertyArgs(properties: seq<(string, string)>): (r: seq<string>)
    ensures |r| == |properties|
    ensures forall k :: 0 <= k < |properties| ==>
      r[k] == SystemPropertyArg(properties[k].0, properties[k].1)
  {
    if |properties| == 0 then []
    else [SystemPropertyArg(properties[0].0, properties[0].1)] + SystemPropertyArgs(properties[1..])
  }

  /** What the argument lists are built from: the build configuration, the scenario and the settings. */
  datatype ArgInputs = ArgInputs(
    buildJvmArgs: seq<string>,
    scenarioJvmArgs: seq<string>,
    systemProperties: seq<(string, string)>,
    scenarioName: string,
    gradleUserHome: string,
    scenarioGradleArgs: seq<string>,
    dryRun: bool)

  /** The scenario name carried by the marker at the end of a JVM argument list, if any. */
  function ScenarioNameOf(args: seq<string>): Option<string>
  {
    if |args| > 0 && ScenarioMarker <= args[|args| - 1]
    then Some(args[|args| - 1][|ScenarioMarker|..])
    else None
  }

  /** The Gradle user home named at the front of a Gradle argument list, if any. */
  function UserHomeOf(args: seq<string>): Option<string>
  {
    if |args| >= 2 && args[0] == GradleUserHomeFlag then Some(args[1]) else None
  }

  /** The JVM arguments of every build, before any calculator has run. */
  function BaseJvmArgs(inputs: ArgInputs): (r: seq<string>)
    ensures |r| == |inputs.buildJvmArgs| + |inputs.scenarioJvmArgs| + |inputs.systemProperties| + 1
    ensures r[..|inputs.buildJvmArgs|] == inputs.buildJvmArgs
    ensures r[|inputs.buildJvmArgs|..|inputs.buildJvmArgs| + |inputs.scenarioJvmArgs|] == inputs.scenarioJvmArgs
    ensures r[|inputs.buildJvmArgs| + |inputs.scenarioJvmArgs|..|r| - 1] == SystemPropertyArgs(inputs.systemProperties)
    ensures ScenarioNameOf(r) == Some(inputs.scenarioName)
  {
    var marker := ScenarioMarker + inputs.scenarioName;
    assert marker[|ScenarioMarker|..] == inputs.scenarioName;
    var r := inputs.buildJvmArgs + inputs.scenarioJvmArgs + SystemPropertyArgs(inputs.systemProperties) + [marker];
    assert r[|r| - 1] == marker;
    r
  }

  /** The Gradle arguments of every build, before any calculator has run. */
  function BaseGradleArgs(inputs: ArgInputs): (r: seq<string>)
    ensures |r| == 2 + |inputs.systemProperties| + |inputs.scenarioGradleArgs| + (if inputs.dryRun then 1 else 0)
    ensures UserHomeOf(r) == Some(inputs.gradleUserHome)
    ensures r[2..2 + |inputs.systemProperties|] == SystemPropertyArgs(inputs.systemProperties)
    ensures r[2 + |inputs.systemProperties|..2 + |inputs.systemProperties| + |inputs.scenarioGradleArgs|] == inputs.scenarioGradleArgs
    ensures inputs.dryRun ==> r[|r| - 1] == DryRunFlag
  {
    [GradleUserHomeFlag, inputs.gradleUserHome]
    + SystemPropertyArgs(inputs.systemProperties)
    + inputs.scenarioGradleArgs
    + (if inputs.dryRun then [DryRunFlag] else [])
  }

  /** Append-only calculators leave the Gradle user home where it was put. */
  lemma KeepsUserHome(chain: Chain, args: seq<string>)
    ensures AllAppendOnly(chain) ==> args <= Apply(chain, args)
    ensures AllAppendOnly(chain) && UserHomeOf(args).Some? ==> UserHomeOf(Apply(chain, args)) == UserHomeOf(args)
  {
    if AllAppendOnly(chain) {
      AppendOnlyChainKeepsPrefix(chain, args);
    }
  }

  /** The calculators the profiler and the instrumentation contribute. */
  datatype Calculators = Calculators(
    profilerJvm: Calculator,
    pidInstrumentation: Calculator,
    profilerGradle: Calculator,
    buildOperations: Calculator,
    buildOperationsNeedInitScript: bool,
    instrumentedJvm: Calculator,
    instrumentedGradle: Calculator)

  /** The Gradle calculator of all builds: pid instrumentation, then the profiler's,
      then the build-operation instrumentation when it needs an init script. */
  function AllBuildsGradleChain(c: Calculators): (r: Chain)
    ensures |r| == if c.buildOperationsNeedInitScript then 3 else 2
    ensures forall args ::
              Apply(r, args) == (var withProfiler := c.profilerGradle(c.pidInstrumentation(args));
                                 if c.buildOperationsNeedInitScript then c.buildOperations(withProfiler) else withProfiler)
  {
    var chain := Plus([c.pidInstrumentation], [c.profilerGradle]);
    forall args ensures Apply(chain, args) == c.profilerGradle(c.pidInstrumentation(args)) {
      ApplySingle(c.pidInstrumentation, args);
      ApplySingle(c.profilerGradle, c.pidInstrumentation(args));
    }
    forall args ensures Apply([c.buildOperations], args) == c.buildOperations(args) {
      ApplySingle(c.buildOperations, args);
    }
    if c.buildOperationsNeedInitScript then Plus(chain, [c.buildOperations]) else chain
  }

  /** The argument lists of one scenario: those of all builds and those of instrumented builds,
      with whether each instrumented list gets logged. */
  datatype ArgSets = ArgSets(
    allJvm: seq<string>,
    allGradle: seq<string>,
    instrumentedJvm: seq<string>,
    instrumentedGradle: seq<string>,
    logInstrumentedJvm: bool,
    logInstrumentedGradle: bool)

  /** The all-builds lists are the base lists run through the all-builds calculators, and
      the instrumented lists are copies of those run through the instrumented-build ones. */
  function ComputeArgs(inputs: ArgInputs, c: Calculators): (r: ArgSets)
    ensures r.allJvm == c.profilerJvm(BaseJvmArgs(inputs))
    ensures r.allGradle == Apply(AllBuildsGradleChain(c), BaseGradleArgs(inputs))
    ensures r.allGradle ==
      (var withProfiler := c.profilerGradle(c.pidInstrumentation(BaseGradleArgs(inputs)));
       if c.buildOperationsNeedInitScript then c.buildOperations(withProfiler) else withProfiler)
    ensures r.instrumentedJvm == c.instrumentedJvm(r.allJvm)
    ensures r.instrumentedGradle == c.instrumentedGradle(r.allGradle)
    ensures r.logInstrumentedJvm <==> r.instrumentedJvm != r.allJvm
    ensures r.logInstrumentedGradle <==> r.instrumentedGradle != r.allGradle
    ensures (forall args :: c.instrumentedJvm(args) == args) ==>
      r.instrumentedJvm == r.allJvm && !r.logInstrumentedJvm
    ensures (forall args :: c.instrumentedGradle(args) == args) ==>
      r.instrumentedGradle == r.allGradle && !r.logInstrumentedGradle
    ensures AppendOnly(c.profilerJvm) ==> BaseJvmArgs(inputs) <= r.allJvm
    ensures AllAppendOnly(AllBuildsGradleChain(c)) ==>
      BaseGradleArgs(inputs) <= r.allGradle && UserHomeOf(r.allGradle) == Some(inputs.gradleUserHome)
    ensures AppendOnly(c.instrumentedJvm) ==> r.allJvm <= r.instrumentedJvm
    ensures AppendOnly(c.instrumentedGradle) ==> r.allGradle <= r.instrumentedGradle
  {
    var allJvm := c.profilerJvm(BaseJvmArgs(inputs));
    var chain := AllBuildsGradleChain(c);
    var allGradle := Apply(chain, BaseGradleArgs(inputs));
    KeepsUserHome(chain, BaseGradleArgs(inputs));
    var instrumentedJvm := c.instrumentedJvm(allJvm);
    var instrumentedGradle := c.instrumentedGradle(allGradle);
    ArgSets(allJvm, allGradle, instrumentedJvm, instrumentedGradle,
      instrumentedJvm != allJvm, instrumentedGradle != allGradle)
  }
}
