/**
 * The dual-output router shared by the three saga steps with a binary
 * outcome. Each classified result is pushed into exactly one of two
 * buffered sinks (`tryEmitNext`); when the input completes, both sinks are
 * completed (`tryEmitComplete`).
 */
module Routing {

  /** A classified result: the event for the success output or the one for the failure output. */
  datatype Routed<+S, +F> = Success(success: S) | Failure(failure: F)

  /** The success events of `results`, in input order. */
  function Successes<R, S, F>(classify: R -> Routed<S, F>, results: seq<R>): seq<S>
  {
    if results == [] then []
    else
      var last := results[|results| - 1];
      Successes(classify, results[..|results| - 1]) +
      (match classify(last) case Success(s) => [s] case Failure(_) => [])
  }

  /** The failure events of `results`, in input order. */
  function Failures<R, S, F>(classify: R -> Routed<S, F>, results: seq<R>): seq<F>
  {
    if results == [] then []
    else
      var last := results[|results| - 1];
      Failures(classify, results[..|results| - 1]) +
      (match classify(last) case Success(_) => [] case Failure(f) => [f])
  }

  /** Routing is total and exclusive: the two outputs together hold one event per result. */
  lemma {:induction false} RoutedCount<R, S, F>(classify: R -> Routed<S, F>, results: seq<R>)
    ensures |Successes(classify, results)| + |Failures(classify, results)| == |results|
  {
    if results != [] {
      RoutedCount(classify, results[..|results| - 1]);
    }
  }

  /** A single result is routed to the output its tag names, and to that output only. */
  lemma RoutedOne<R, S, F>(classify: R -> Routed<S, F>, result: R)
    ensures Successes(classify, [result]) == match classify(result) case Success(s) => [s] case Failure(_) => []
    ensures Failures(classify, [result]) == match classify(result) case Success(_) => [] case Failure(f) => [f]
  {
    assert [result][..0] == [];
  }

  /** Results processed later land after those processed earlier, on either output. */
  lemma {:induction false} RoutedAppend<R, S, F>(classify: R -> Routed<S, F>, xs: seq<R>, ys: seq<R>)
    ensures Successes(classify, xs + ys) == Successes(classify, xs) + Successes(classify, ys)
    ensures Failures(classify, xs + ys) == Failures(classify, xs) + Failures(classify, ys)
    decreases |ys|
  {
    if ys == [] {
      assert xs + ys == xs;
    } else {
      var ys' := ys[..|ys| - 1];
      assert (xs + ys)[..|xs + ys| - 1] == xs + ys';
      RoutedAppend(classify, xs, ys');
    }
  }

  /**
   * Where the event of the i-th result goes: a success event sits on the
   * success output right after the success events of the results before it,
   * and the failure output does not advance for it; symmetrically for a
   * failure event.
   */
  lemma {:induction false} RoutedAt<R, S, F>(classify: R -> Routed<S, F>, results: seq<R>, i: nat)
    requires i < |results|
    ensures match classify(results[i])
      case Success(s) =>
        && |Successes(classify, results[..i])| < |Successes(classify, results)|
        && Successes(classify, results)[|Successes(classify, results[..i])|] == s
        && Failures(classify, results[..i + 1]) == Failures(classify, results[..i])
      case Failure(f) =>
        && |Failures(classify, results[..i])| < |Failures(classify, results)|
        && Failures(classify, results)[|Failures(classify, results[..i])|] == f
        && Successes(classify, results[..i + 1]) == Successes(classify, results[..i])
  {
    var pre, at, post := results[..i], results[i], results[i + 1..];
    assert results == (pre + [at]) + post;
    assert results[..i + 1] == pre + [at];
    assert (pre + [at])[..|pre + [at]| - 1] == pre;
    RoutedAppend(classify, pre + [at], post);
  }

  /** Every event on an output is the classification of some result. */
  lemma {:induction false} RoutedFrom<R, S, F>(classify: R -> Routed<S, F>, results: seq<R>)
    ensures forall s :: s in Successes(classify, results) ==>
              exists i :: 0 <= i < |results| && classify(results[i]) == Success(s)
    ensures forall f :: f in Failures(classify, results) ==>
              exists i :: 0 <= i < |results| && classify(results[i]) == Failure(f)
  {
    if results != [] {
      var n := |results| - 1;
      var init := results[..n];
      RoutedFrom(classify, init);
      forall s | s in Successes(classify, results)
        ensures exists i :: 0 <= i < |results| && classify(results[i]) == Success(s)
      {
        if s in Successes(classify, init) {
          var i :| 0 <= i < |init| && classify(init[i]) == Success(s);
          assert results[i] == init[i];
        } else {
          assert classify(results[n]) == Success(s);
        }
      }
      forall f | f in Failures(classify, results)
        ensures exists i :: 0 <= i < |results| && classify(results[i]) == Failure(f)
      {
        if f in Failures(classify, init) {
          var i :| 0 <= i < |init| && classify(init[i]) == Failure(f);
          assert results[i] == init[i];
        } else {
          assert classify(results[n]) == Failure(f);
        }
      }
    }
  }

  /**
   * The pair of buffered sinks of one step. `received` is the sequence of
   * results delivered before completion; the buffers always hold exactly the
   * routed events of those results.
   */
  class DualSink<R, S, F> {
    const classify: R -> Routed<S, F>
    var successes: seq<S>
    var failures: seq<F>
    var successCompleted: bool
    var failureCompleted: bool
    ghost var received: seq<R>

    ghost predicate Valid()
      reads this
    {
      && successes == Successes(classify, received)
      && failures == Failures(classify, received)
      && successCompleted == failureCompleted
    }

    constructor (classify: R -> Routed<S, F>)
      ensures Valid() && this.classify == classify
      ensures received == [] && successes == [] && failures == []
      ensures !successCompleted && !failureCompleted
    {
      this.classify := classify;
      successes, failures := [], [];
      successCompleted, failureCompleted := false, false;
      received := [];
    }

    /** One result arrives: its event is appended to exactly one buffer; a completed sink accepts nothing. */
    method OnNext(result: R)
      requires Valid()
      modifies this
      ensures Valid()
      ensures successCompleted == old(successCompleted) && failureCompleted == old(failureCompleted)
      ensures old(successCompleted) ==>
                received == old(received) && successes == old(successes) && failures == old(failures)
      ensures !old(successCompleted) ==> received == old(received) + [result]
      ensures !old(successCompleted) ==> match classify(result)
                case Success(s) => successes == old(successes) + [s] && failures == old(failures)
                case Failure(f) => successes == old(successes) && failures == old(failures) + [f]
    {
      if !successCompleted {
        assert (received + [result])[..|received|] == received;
        received := received + [result];
      }
      match classify(result)
      case Success(s) =>
        if !successCompleted { successes := successes + [s]; }
      case Failure(f) =>
        if !failureCompleted { failures := failures + [f]; }
    }

    /** The input completed: both sinks are completed, their buffers untouched. */
    method OnComplete()
      requires Valid()
      modifies this
      ensures Valid()
      ensures successCompleted && failureCompleted
      ensures received == old(received) && successes == old(successes) && failures == old(failures)
    {
      successCompleted, failureCompleted := true, true;
    }
  }

  /**
   * Feeds an already-ordered sequence of results to a fresh pair of sinks and
   * then completes the input: the buffers end up holding the routed events and
   * both sinks are completed.
   */
  method Route<R, S, F>(classify: R -> Routed<S, F>, results: seq<R>)
    returns (successes: seq<S>, failures: seq<F>, successCompleted: bool, failureCompleted: bool)
    ensures successes == Successes(classify, results)
    ensures failures == Failures(classify, results)
    ensures successCompleted && failureCompleted
  {
    var sink := new DualSink(classify);
    for i := 0 to |results|
      invariant sink.Valid() && sink.classify == classify
      invariant sink.received == results[..i]
      invariant !sink.successCompleted
    {
      assert results[..i + 1] == results[..i] + [results[i]];
      sink.OnNext(results[i]);
    }
    sink.OnComplete();
    assert results[..|results|] == results;
    successes, failures := sink.successes, sink.failures;
    successCompleted, failureCompleted := sink.successCompleted, sink.failureCompleted;
  }
}
