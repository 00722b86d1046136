/** The samples a Gradle scenario reports for every measured build. */
module Samples {

  /** A measurable quantity extracted from one build invocation result. */
  datatype Sample =
    | ExecutionTime
    | TimeToTaskExecution
    | BuildOperation(operation: string)

  /** One sample per measured build operation, in declaration order. */
  function OperationSamples(operations: seq<string>): (r: seq<Sample>)
    ensures |r| == |operations|
    ensures forall k :: 0 <= k < |operations| ==> r[k] == BuildOperation(operations[k])
  {
    if |operations| == 0 then []
    else [BuildOperation(operations[0])] + OperationSamples(operations[1..])
  }

  /** The ordered sample list of a scenario: execution time first, then the
      configuration time when it is measured, then the build operations. */
  function SamplesFor(measureConfigTime: bool, measuredBuildOperations: seq<string>): (r: seq<Sample>)
    ensures |r| == 1 + (if measureConfigTime then 1 else 0) + |measuredBuildOperations|
    ensures r[0] == ExecutionTime && ExecutionTime !in r[1..]
    ensures measureConfigTime ==> r[1] == TimeToTaskExecution
    ensures TimeToTaskExecution in r <==> measureConfigTime
    ensures forall k :: 0 <= k < |measuredBuildOperations| ==>
      r[|r| - |measuredBuildOperations| + k] == BuildOperation(measuredBuildOperations[k])
  {
    [ExecutionTime]
    + (if measureConfigTime then [TimeToTaskExecution] else [])
    + OperationSamples(measuredBuildOperations)
  }

  /** Reads back, in order, the build operations a sample list measures. */
  function MeasuredOperations(samples: seq<Sample>): seq<string>
  {
    if |samples| == 0 then []
    else if samples[0].BuildOperation? then [samples[0].operation] + MeasuredOperations(samples[1..])
    else MeasuredOperations(samples[1..])
  }

  lemma {:induction false} MeasuredOperationsAppend(a: seq<Sample>, b: seq<Sample>)
    ensures MeasuredOperations(a + b) == MeasuredOperations(a) + MeasuredOperations(b)
    decreases |a|
  {
    if |a| == 0 {
      assert a + b == b;
    } else {
      assert (a + b)[1..] == a[1..] + b;
      MeasuredOperationsAppend(a[1..], b);
    }
  }

  /** Reading the operations back out of their samples gives the declared list. */
  lemma {:induction false} OperationSamplesRoundTrip(operations: seq<string>)
    ensures MeasuredOperations(OperationSamples(operations)) == operations
    decreases |operations|
  {
    if |operations| > 0 {
      var r := OperationSamples(operations);
      assert r[1..] == OperationSamples(operations[1..]);
      OperationSamplesRoundTrip(operations[1..]);
    }
  }

  /** The sample list determines both inputs of SamplesFor: whether the
      configuration time is measured, and the measured operations in order. */
  lemma {:induction false} SamplesForRoundTrip(measureConfigTime: bool, measuredBuildOperations: seq<string>)
    ensures MeasuredOperations(SamplesFor(measureConfigTime, measuredBuildOperations)) == measuredBuildOperations
    ensures (TimeToTaskExecution in SamplesFor(measureConfigTime, measuredBuildOperations)) == measureConfigTime
  {
    var head := [ExecutionTime] + (if measureConfigTime then [TimeToTaskExecution] else []);
    assert MeasuredOperations(head) == [] by {
      assert MeasuredOperations(head) == MeasuredOperations(head[1..]);
      if measureConfigTime {
        assert head[1..] == [TimeToTaskExecution];
        assert MeasuredOperations(head[1..]) == MeasuredOperations(head[1..][1..]);
        assert head[1..][1..] == [];
      } else {
        assert head[1..] == [];
      }
    }
    MeasuredOperationsAppend(head, OperationSamples(measuredBuildOperations));
    OperationSamplesRoundTrip(measuredBuildOperations);
  }
}
