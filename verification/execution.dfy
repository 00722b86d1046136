/** Running a planned sequence of steps, stopping at the first one that fails. */
module Execution {
  import opened Optional
  import opened Events

  /** One planned step of a run. */
  datatype Action =
    | Call(site: Site, event: Event)                             // a collaborator call, which may fail
    | Note(event: Event)                                         // a step that cannot fail
    | RequireResult(present: bool)                               // the null check on the last result
    | VerifyPid(expected: Option<Pid>, actual: Pid, reuseDaemon: bool)

  /** How an action fails, given the call (if any) that the collaborators fail. */
  function FailureOf(a: Action, failAt: Option<Site>): Option<Failure>
  {
    match a
    case Call(site, _) => if failAt == Some(site) then Some(CollaboratorFailed(site)) else None
    case Note(_) => None
    case RequireResult(present) => if present then None else Some(NoBuildResult)
    case VerifyPid(expected, actual, reuseDaemon) => CheckPid(expected, actual, reuseDaemon)
  }

  function EventsOf(a: Action): seq<Event>
  {
    match a
    case Call(_, e) => [e]
    case Note(e) => [e]
    case RequireResult(_) => []
    case VerifyPid(expected, actual, _) => [PidChecked(expected, actual)]
  }

  /** The events of a plan that runs to its end. */
  function Trace(plan: seq<Action>): seq<Event>
    decreases |plan|
  {
    if |plan| == 0 then [] else EventsOf(plan[0]) + Trace(plan[1..])
  }

  /** The index of the first action that fails, or the plan's length when none does. */
  function FirstFailure(plan: seq<Action>, failAt: Option<Site>): (k: nat)
    ensures k <= |plan|
    ensures forall j :: 0 <= j < k ==> FailureOf(plan[j], failAt).None?
    ensures k < |plan| ==> FailureOf(plan[k], failAt).Some?
    decreases |plan|
  {
    if |plan| == 0 then 0
    else if FailureOf(plan[0], failAt).Some? then 0
    else 1 + FirstFailure(plan[1..], failAt)
  }

  /** How many actions of the plan get attempted: up to and including the first failing one. */
  function Attempted(plan: seq<Action>, failAt: Option<Site>): nat
  {
    var k := FirstFailure(plan, failAt);
    if k < |plan| then k + 1 else k
  }

  datatype Partial = Partial(events: seq<Event>, failure: Option<Failure>)

  /** Runs the actions in order; the first failure ends the run and is reported. */
  function Execute(plan: seq<Action>, failAt: Option<Site>): Partial
    decreases |plan|
  {
    if |plan| == 0 then Partial([], None)
    else
      match FailureOf(plan[0], failAt)
      case Some(f) => Partial(EventsOf(plan[0]), Some(f))
      case None =>
        var rest := Execute(plan[1..], failAt);
        Partial(EventsOf(plan[0]) + rest.events, rest.failure)
  }

  /** A plan that runs to its end produces its whole trace. */
  lemma {:induction false} ExecuteComplete(plan: seq<Action>, failAt: Option<Site>)
    ensures Execute(plan, failAt).failure.None? ==> Execute(plan, failAt).events == Trace(plan)
    decreases |plan|
  {
    if |plan| > 0 && FailureOf(plan[0], failAt).None? {
      ExecuteComplete(plan[1..], failAt);
    }
  }

  /** Two collaborator failures that no action of the plan tells apart run the plan alike. */
  lemma {:induction false} ExecuteSameFailures(plan: seq<Action>, f: Option<Site>, g: Option<Site>)
    requires forall a :: a in plan ==> FailureOf(a, f) == FailureOf(a, g)
    ensures Execute(plan, f) == Execute(plan, g)
    decreases |plan|
  {
    if |plan| > 0 {
      assert plan[0] in plan;
      assert forall a :: a in plan[1..] ==> a in plan;
      ExecuteSameFailures(plan[1..], f, g);
    }
  }

  /** Execution reports the failure of the first failing action, and nothing when none fails. */
  lemma {:induction false} ExecuteReportsFirstFailure(plan: seq<Action>, failAt: Option<Site>)
    ensures Execute(plan, failAt).failure ==
      (if FirstFailure(plan, failAt) < |plan| then FailureOf(plan[FirstFailure(plan, failAt)], failAt) else None)
    decreases |plan|
  {
    if |plan| > 0 && FailureOf(plan[0], failAt).None? {
      ExecuteReportsFirstFailure(plan[1..], failAt);
    }
  }

  /** Execution attempts exactly the actions up to and including the first failing one. */
  lemma {:induction false} ExecuteAttemptsUpToFailure(plan: seq<Action>, failAt: Option<Site>)
    ensures Execute(plan, failAt).events == Trace(plan[..Attempted(plan, failAt)])
    decreases |plan|
  {
    if |plan| > 0 {
      if FailureOf(plan[0], failAt).Some? {
        assert plan[..1] == [plan[0]];
        assert Trace(plan[..1]) == EventsOf(plan[0]) + Trace(plan[..1][1..]);
      } else {
        ExecuteAttemptsUpToFailure(plan[1..], failAt);
        var m := Attempted(plan[1..], failAt);
        assert Attempted(plan, failAt) == m + 1;
        assert plan[..m + 1][1..] == plan[1..][..m];
      }
    }
  }

  /** Execution succeeds exactly when no action of the plan fails. */
  lemma ExecuteSucceedsIff(plan: seq<Action>, failAt: Option<Site>)
    ensures Execute(plan, failAt).failure.None? <==> forall j :: 0 <= j < |plan| ==> FailureOf(plan[j], failAt).None?
  {
    ExecuteReportsFirstFailure(plan, failAt);
  }

  /** Executing a plan yields a prefix of its trace. */
  lemma ExecutePrefix(plan: seq<Action>, failAt: Option<Site>)
    ensures Execute(plan, failAt).events <= Trace(plan)
  {
    ExecuteAttemptsUpToFailure(plan, failAt);
    var k := Attempted(plan, failAt);
    assert plan == plan[..k] + plan[k..];
    TraceAppend(plan[..k], plan[k..]);
  }

  lemma {:induction false} TraceAppend(a: seq<Action>, b: seq<Action>)
    ensures Trace(a + b) == Trace(a) + Trace(b)
    decreases |a|
  {
    if |a| == 0 {
      assert a + b == b;
    } else {
      ConsAppend(a, b);
      TraceAppend(a[1..], b);
      ConcatAssoc(EventsOf(a[0]), Trace(a[1..]), Trace(b));
    }
  }

  lemma TraceSingle(a: Action)
    ensures Trace([a]) == EventsOf(a)
  {
    assert [a][1..] == [];
  }

  /** An event is in a plan's trace exactly when some action of the plan produces it. */
  lemma {:induction false} TraceMember(plan: seq<Action>, e: Event)
    ensures e in Trace(plan) <==> exists a :: a in plan && e in EventsOf(a)
    decreases |plan|
  {
    if |plan| > 0 {
      TraceMember(plan[1..], e);
      assert forall a :: a in plan <==> a == plan[0] || a in plan[1..];
    }
  }

  /** Executing two plans one after the other is executing their concatenation. */
  lemma ExecuteAppend(a: seq<Action>, b: seq<Action>, failAt: Option<Site>)
    ensures Execute(a + b, failAt) ==
      (var x := Execute(a, failAt);
       if x.failure.Some? then x
       else Partial(x.events + Execute(b, failAt).events, Execute(b, failAt).failure))
  {
    ExecuteAppendFailure(a, b, failAt);
    ExecuteAppendEvents(a, b, failAt);
  }

  lemma {:induction false} ExecuteAppendFailure(a: seq<Action>, b: seq<Action>, failAt: Option<Site>)
    ensures Execute(a + b, failAt).failure ==
      (if Execute(a, failAt).failure.Some? then Execute(a, failAt).failure else Execute(b, failAt).failure)
    decreases |a|
  {
    if |a| == 0 {
      assert a + b == b;
    } else {
      ConsAppend(a, b);
      if FailureOf(a[0], failAt).None? {
        ExecuteAppendFailure(a[1..], b, failAt);
      }
    }
  }

  lemma ExecuteAppendEvents(a: seq<Action>, b: seq<Action>, failAt: Option<Site>)
    ensures Execute(a + b, failAt).events ==
      (if Execute(a, failAt).failure.Some? then Execute(a, failAt).events
       else Execute(a, failAt).events + Execute(b, failAt).events)
  {
    if Execute(a, failAt).failure.Some? {
      ExecuteAppendStopped(a, b, failAt);
    } else {
      ExecuteAppendPassed(a, b, failAt);
      ExecuteComplete(a, failAt);
    }
  }

  /** A plan that fails stops its continuation from running. */
  lemma {:induction false} ExecuteAppendStopped(a: seq<Action>, b: seq<Action>, failAt: Option<Site>)
    requires Execute(a, failAt).failure.Some?
    ensures Execute(a + b, failAt) == Execute(a, failAt)
    decreases |a|
  {
    ConsAppend(a, b);
    if FailureOf(a[0], failAt).None? {
      ExecuteAppendStopped(a[1..], b, failAt);
    }
  }

  /** A plan that runs to its end is followed by its continuation's events. */
  lemma {:induction false} ExecuteAppendPassed(a: seq<Action>, b: seq<Action>, failAt: Option<Site>)
    requires Execute(a, failAt).failure.None?
    ensures Execute(a + b, failAt).events == Trace(a) + Execute(b, failAt).events
    decreases |a|
  {
    if |a| == 0 {
      assert a + b == b;
    } else {
      ConsAppend(a, b);
      ExecuteAppendPassed(a[1..], b, failAt);
      ConcatAssoc(EventsOf(a[0]), Trace(a[1..]), Execute(b, failAt).events);
    }
  }

  lemma ConsAppend<T>(a: seq<T>, b: seq<T>)
    requires |a| > 0
    ensures (a + b)[0] == a[0] && (a + b)[1..] == a[1..] + b
  {
  }

  lemma InConcat<T>(x: T, a: seq<T>, b: seq<T>)
    ensures x in a + b <==> x in a || x in b
  {
  }

  lemma ConcatAssoc<T>(x: seq<T>, y: seq<T>, z: seq<T>)
    ensures x + (y + z) == (x + y) + z
  {
  }

  /** A reported failure is the failure of an action of the plan. */
  lemma FailureFromPlan(plan: seq<Action>, failAt: Option<Site>)
    ensures Execute(plan, failAt).failure.Some? ==>
      exists a :: a in plan && FailureOf(a, failAt) == Execute(plan, failAt).failure
  {
    ExecuteReportsFirstFailure(plan, failAt);
    if Execute(plan, failAt).failure.Some? {
      assert plan[FirstFailure(plan, failAt)] in plan;
    }
  }

  /** A plan that fails with a collaborator failure at `site` was told to fail there. */
  lemma CollaboratorFailureSite(plan: seq<Action>, failAt: Option<Site>, site: Site)
    requires Execute(plan, failAt).failure == Some(CollaboratorFailed(site))
    ensures failAt == Some(site)
  {
    FailureFromPlan(plan, failAt);
    var culprit :| culprit in plan && FailureOf(culprit, failAt) == Some(CollaboratorFailed(site));
  }
}
