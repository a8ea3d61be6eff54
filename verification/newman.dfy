/**
 * The part of the test runner's run summary that the reporter reads:
 * `summary.run.executions[].assertions[]`, where every level may be missing.
 */
module Newman {
  import opened Wrappers

  datatype AssertionError = AssertionError(message: Option<string>)

  /** One recorded assertion; its `assertion` field carries the test's name. */
  datatype Assertion = Assertion(assertion: string, error: Option<AssertionError>)

  datatype Execution = Execution(assertions: Option<seq<Assertion>>)

  datatype Run = Run(executions: Option<seq<Execution>>)

  datatype Summary = Summary(run: Option<Run>)

  /** `summary?.run?.executions ?? []` */
  function Executions(summary: Option<Summary>): (es: seq<Execution>)
    ensures summary.None? || summary.value.run.None? || summary.value.run.value.executions.None? ==> es == []
    ensures summary.Some? && summary.value.run.Some? && summary.value.run.value.executions.Some? ==>
              es == summary.value.run.value.executions.value
  {
    match summary
    case None => []
    case Some(s) =>
      match s.run
      case None => []
      case Some(run) => if run.executions.Some? then run.executions.value else []
  }

  /** `execution.assertions ?? []` */
  function AssertionsOf(e: Execution): (r: seq<Assertion>)
    ensures e.assertions.None? ==> r == []
    ensures e.assertions.Some? ==> r == e.assertions.value
  {
    match e.assertions
    case None => []
    case Some(list) => list
  }

  /** The assertions of all executions in traversal order: executions in order, then assertions in order. */
  function Flatten(es: seq<Execution>): seq<Assertion>
  {
    if es == [] then [] else Flatten(es[..|es| - 1]) + AssertionsOf(es[|es| - 1])
  }

  /** The total number of assertions across all executions, counted independently of Flatten. */
  function Count(es: seq<Execution>): nat
  {
    if es == [] then 0 else |AssertionsOf(es[0])| + Count(es[1..])
  }

  lemma {:induction false} CountAppend(es: seq<Execution>, e: Execution)
    ensures Count(es + [e]) == Count(es) + |AssertionsOf(e)|
  {
    if es != [] {
      assert (es + [e])[1..] == es[1..] + [e];
      CountAppend(es[1..], e);
    }
  }

  /** As many assertions are traversed as there are in all executions together. */
  lemma {:induction false} FlattenLength(es: seq<Execution>)
    ensures |Flatten(es)| == Count(es)
  {
    if es != [] {
      var init := es[..|es| - 1];
      FlattenLength(init);
      CountAppend(init, es[|es| - 1]);
      assert init + [es[|es| - 1]] == es;
    }
  }

  /**
   * Traversal order: the `j`-th assertion of execution `e` comes right after
   * all assertions of the executions before `e`.
   */
  lemma {:induction false} FlattenOrder(es: seq<Execution>, e: nat, j: nat)
    requires e < |es| && j < |AssertionsOf(es[e])|
    ensures Count(es[..e]) + j < |Flatten(es)|
    ensures Flatten(es)[Count(es[..e]) + j] == AssertionsOf(es[e])[j]
  {
    var init := es[..|es| - 1];
    FlattenLength(init);
    if e == |es| - 1 {
      assert es[..e] == init;
    } else {
      assert init[..e] == es[..e];
      FlattenOrder(init, e, j);
    }
  }

  /** A missing `summary`, `run` or `executions` yields no assertions at all. */
  lemma MissingLevelsYieldNothing(summary: Option<Summary>)
    requires summary.None? || summary.value.run.None? || summary.value.run.value.executions.None?
    ensures Flatten(Executions(summary)) == []
  {
  }

  /** An execution without `assertions` contributes nothing to the traversal. */
  lemma {:induction false} MissingAssertionsYieldNothing(es: seq<Execution>, e: Execution)
    requires e.assertions.None?
    ensures Flatten(es + [e]) == Flatten(es)
  {
    assert (es + [e])[..|es|] == es;
  }
}
