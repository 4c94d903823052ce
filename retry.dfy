/** The retry policy of `FNode._exec` and the batch fan-out of `BatchNode._exec`,
    stated as functions of the attempt counter the node carries in `currentRetry`.

    The user's `exec` is an oracle `exec(prepRes, attempt)`: what the call made
    while `currentRetry == attempt` returns or throws. `fallback(prepRes, error)`
    is `execFallback`, whose default rethrows `error`. */
module Retry {
  import opened Js

  /** What one `_exec` invocation did: its outcome, how many times it called
      `exec`, the counter it left in `currentRetry`, and whether it called the
      fallback (at most once). */
  datatype Attempts = Attempts(outcome: Outcome, calls: nat, counter: int, fellBack: bool)

  /** The attempt loop `for (this.currentRetry; this.currentRetry < this.maxRetries;
      this.currentRetry++)`, started from `counter`; `RetryFromMeans` states what
      it does. */
  function RetryFrom(counter: int, maxRetries: int, prepRes: Value,
                     exec: (Value, int) -> Outcome, fallback: (Value, Value) -> Outcome): Attempts
    decreases maxRetries - counter
  {
    if counter >= maxRetries then Attempts(Ok(Undefined), 0, counter, false)
    else
      match exec(prepRes, counter)
      case Ok(v) => Attempts(Ok(v), 1, counter, false)
      case Throw(e) =>
        if counter == maxRetries - 1 then Attempts(fallback(prepRes, e), 1, counter, true)
        else
          var rest := RetryFrom(counter + 1, maxRetries, prepRes, exec, fallback);
          rest.(calls := rest.calls + 1)
  }

  /** What one invocation of the attempt loop does, from any counter. */
  lemma {:induction false} RetryFromMeans(counter: int, maxRetries: int, prepRes: Value,
                                          exec: (Value, int) -> Outcome, fallback: (Value, Value) -> Outcome)
    ensures var r := RetryFrom(counter, maxRetries, prepRes, exec, fallback);
      // a counter already at the bound: no call, the invocation yields `undefined`
      && (counter >= maxRetries ==> r == Attempts(Ok(Undefined), 0, counter, false))
      // otherwise one call per counter value from `counter` up to the one left behind
      && (counter < maxRetries ==> counter <= r.counter < maxRetries && r.calls == r.counter - counter + 1)
      // every attempt before the last one threw
      && (forall k :: counter <= k < r.counter ==> exec(prepRes, k).Throw?)
      // the loop ends on the first success, whose value is returned
      && (counter < maxRetries && !r.fellBack ==> exec(prepRes, r.counter).Ok? && r.outcome == exec(prepRes, r.counter))
      // or on a failure of the last attempt, whose error goes to the fallback
      && (r.fellBack ==> r.counter == maxRetries - 1 && exec(prepRes, r.counter).Throw?)
      && (r.fellBack ==> r.outcome == fallback(prepRes, exec(prepRes, r.counter).error))
    decreases maxRetries - counter
  {
    if counter < maxRetries - 1 && exec(prepRes, counter).Throw? {
      RetryFromMeans(counter + 1, maxRetries, prepRes, exec, fallback);
    }
  }

  /** A failed attempt that is not the last hands over to the next counter value. */
  lemma RetryStep(counter: int, maxRetries: int, prepRes: Value,
                  exec: (Value, int) -> Outcome, fallback: (Value, Value) -> Outcome)
    requires counter < maxRetries - 1 && exec(prepRes, counter).Throw?
    ensures var rest := RetryFrom(counter + 1, maxRetries, prepRes, exec, fallback);
            RetryFrom(counter, maxRetries, prepRes, exec, fallback) == rest.(calls := rest.calls + 1)
  {
  }

  /** An attempt that succeeds ends the loop with its value. */
  lemma RetrySucceeds(counter: int, maxRetries: int, prepRes: Value,
                      exec: (Value, int) -> Outcome, fallback: (Value, Value) -> Outcome)
    requires counter < maxRetries && exec(prepRes, counter).Ok?
    ensures RetryFrom(counter, maxRetries, prepRes, exec, fallback) == Attempts(exec(prepRes, counter), 1, counter, false)
  {
  }

  /** A failure of the last attempt hands its error to the fallback. */
  lemma RetryFallsBack(counter: int, maxRetries: int, prepRes: Value,
                       exec: (Value, int) -> Outcome, fallback: (Value, Value) -> Outcome)
    requires counter == maxRetries - 1 && exec(prepRes, counter).Throw?
    ensures RetryFrom(counter, maxRetries, prepRes, exec, fallback)
            == Attempts(fallback(prepRes, exec(prepRes, counter).error), 1, counter, true)
  {
  }

  /** From a fresh counter, an `exec` that always throws is called exactly
      `maxRetries` times, then the fallback once with the last error; its result
      is the invocation's, and the counter stays at `maxRetries - 1`. */
  lemma AllAttemptsFail(maxRetries: int, prepRes: Value,
                        exec: (Value, int) -> Outcome, fallback: (Value, Value) -> Outcome)
    requires 0 < maxRetries
    requires forall k :: 0 <= k < maxRetries ==> exec(prepRes, k).Throw?
    ensures var r := RetryFrom(0, maxRetries, prepRes, exec, fallback);
      && r.calls == maxRetries
      && r.fellBack
      && r.counter == maxRetries - 1
      && r.outcome == fallback(prepRes, exec(prepRes, maxRetries - 1).error)
  {
    RetryFromMeans(0, maxRetries, prepRes, exec, fallback);
  }

  /** From a fresh counter, an `exec` that first succeeds on attempt `j` (1-based)
      is called exactly `j` times, the fallback never, and the counter is left at
      `j - 1`. */
  lemma FirstSuccessOnAttempt(j: int, maxRetries: int, prepRes: Value,
                              exec: (Value, int) -> Outcome, fallback: (Value, Value) -> Outcome)
    requires 1 <= j <= maxRetries
    requires forall k :: 0 <= k < j - 1 ==> exec(prepRes, k).Throw?
    requires exec(prepRes, j - 1).Ok?
    ensures var r := RetryFrom(0, maxRetries, prepRes, exec, fallback);
      && r.calls == j
      && !r.fellBack
      && r.counter == j - 1
      && r.outcome == exec(prepRes, j - 1)
  {
    RetryFromMeans(0, maxRetries, prepRes, exec, fallback);
  }

  /** The counter is never reset: a second invocation starts where the first
      left it, so after a fallback it gets a single attempt, whatever happens. */
  lemma ReuseAfterFallback(maxRetries: int, prepRes: Value, again: Value,
                           exec: (Value, int) -> Outcome, fallback: (Value, Value) -> Outcome)
    requires 0 < maxRetries
    requires RetryFrom(0, maxRetries, prepRes, exec, fallback).fellBack
    ensures var first := RetryFrom(0, maxRetries, prepRes, exec, fallback);
            RetryFrom(first.counter, maxRetries, again, exec, fallback).calls == 1
  {
    var first := RetryFrom(0, maxRetries, prepRes, exec, fallback);
    RetryFromMeans(0, maxRetries, prepRes, exec, fallback);
    RetryFromMeans(first.counter, maxRetries, again, exec, fallback);
  }

  /** What one `BatchNode._exec` did: the results in input order, or the first
      error, and the counter it left behind. */
  datatype BatchAttempts = BatchAttempts(outcome: Result<seq<Value>>, counter: int)

  /** The retry policy applied to each item in turn, the counter carried from one
      item to the next; the first item whose policy throws ends the batch. */
  function BatchFrom(counter: int, maxRetries: int, items: seq<Value>,
                     exec: (Value, int) -> Outcome, fallback: (Value, Value) -> Outcome): (r: BatchAttempts)
    ensures r.outcome.Ok? ==> |r.outcome.value| == |items|
    decreases |items|
  {
    if items == [] then BatchAttempts(Ok([]), counter)
    else
      var head := RetryFrom(counter, maxRetries, items[0], exec, fallback);
      if head.outcome.Throw? then BatchAttempts(Throw(head.outcome.error), head.counter)
      else
        var tail := BatchFrom(head.counter, maxRetries, items[1..], exec, fallback);
        if tail.outcome.Throw? then tail
        else BatchAttempts(Ok([head.outcome.value] + tail.outcome.value), tail.counter)
  }

  /** A batch whose first items produced `done`, followed by what the rest did. */
  function AfterDone(done: seq<Value>, rest: BatchAttempts): BatchAttempts {
    if rest.outcome.Ok? then BatchAttempts(Ok(done + rest.outcome.value), rest.counter) else rest
  }

  /** The counter each item's policy starts from: the first item from `counter`,
      every later one from what its predecessor left. */
  function EntryCounters(counter: int, maxRetries: int, items: seq<Value>,
                         exec: (Value, int) -> Outcome, fallback: (Value, Value) -> Outcome): (cs: seq<int>)
    ensures |cs| == |items|
    ensures |items| > 0 ==> cs[0] == counter
    // each later item starts from the counter its predecessor's policy left
    ensures forall i :: 0 <= i < |items| - 1 ==>
              cs[i + 1] == RetryFrom(cs[i], maxRetries, items[i], exec, fallback).counter
    decreases |items|
  {
    if items == [] then []
    else [counter] + EntryCounters(RetryFrom(counter, maxRetries, items[0], exec, fallback).counter,
                                   maxRetries, items[1..], exec, fallback)
  }

  /** Order preservation: a successful batch has one result per item, and result
      `i` is what the retry policy yields for `items[i]`. */
  lemma {:induction false} BatchResultAt(counter: int, maxRetries: int, items: seq<Value>,
                                         exec: (Value, int) -> Outcome, fallback: (Value, Value) -> Outcome)
    requires BatchFrom(counter, maxRetries, items, exec, fallback).outcome.Ok?
    ensures var results := BatchFrom(counter, maxRetries, items, exec, fallback).outcome.value;
            var cs := EntryCounters(counter, maxRetries, items, exec, fallback);
            forall i :: 0 <= i < |items| ==>
              RetryFrom(cs[i], maxRetries, items[i], exec, fallback).outcome == Ok(results[i])
    decreases |items|
  {
    if items != [] {
      var head := RetryFrom(counter, maxRetries, items[0], exec, fallback);
      BatchResultAt(head.counter, maxRetries, items[1..], exec, fallback);
      var results := BatchFrom(counter, maxRetries, items, exec, fallback).outcome.value;
      var cs := EntryCounters(counter, maxRetries, items, exec, fallback);
      var tail := BatchFrom(head.counter, maxRetries, items[1..], exec, fallback).outcome.value;
      assert results == [head.outcome.value] + tail;
      forall i | 1 <= i < |items|
        ensures RetryFrom(cs[i], maxRetries, items[i], exec, fallback).outcome == Ok(results[i])
      {
        assert items[i] == items[1..][i - 1];
      }
    }
  }

  /** A failed batch failed at some item: every earlier item's policy succeeded
      and that item's policy threw the batch's error. */
  lemma {:induction false} BatchThrowAt(counter: int, maxRetries: int, items: seq<Value>,
                                        exec: (Value, int) -> Outcome, fallback: (Value, Value) -> Outcome)
    returns (i: nat)
    requires BatchFrom(counter, maxRetries, items, exec, fallback).outcome.Throw?
    ensures i < |items|
    ensures var cs := EntryCounters(counter, maxRetries, items, exec, fallback);
            forall j :: 0 <= j < i ==> RetryFrom(cs[j], maxRetries, items[j], exec, fallback).outcome.Ok?
    ensures var cs := EntryCounters(counter, maxRetries, items, exec, fallback);
            RetryFrom(cs[i], maxRetries, items[i], exec, fallback).outcome
              == Throw(BatchFrom(counter, maxRetries, items, exec, fallback).outcome.error)
    decreases |items|
  {
    var head := RetryFrom(counter, maxRetries, items[0], exec, fallback);
    var cs := EntryCounters(counter, maxRetries, items, exec, fallback);
    if head.outcome.Throw? {
      i := 0;
    } else {
      var rest := EntryCounters(head.counter, maxRetries, items[1..], exec, fallback);
      assert cs == [counter] + rest;
      var k := BatchThrowAt(head.counter, maxRetries, items[1..], exec, fallback);
      i := k + 1;
      assert items[i] == items[1..][k];
      forall j | 0 <= j < i
        ensures RetryFrom(cs[j], maxRetries, items[j], exec, fallback).outcome.Ok?
      {
        if j > 0 {
          assert items[j] == items[1..][j - 1];
        }
      }
    }
  }

  /** A batch fails exactly when the policy of some item throws. */
  lemma BatchFailsIffSomeItemThrows(counter: int, maxRetries: int, items: seq<Value>,
                                    exec: (Value, int) -> Outcome, fallback: (Value, Value) -> Outcome)
    ensures var cs := EntryCounters(counter, maxRetries, items, exec, fallback);
            BatchFrom(counter, maxRetries, items, exec, fallback).outcome.Throw? <==>
              exists i :: 0 <= i < |items| && RetryFrom(cs[i], maxRetries, items[i], exec, fallback).outcome.Throw?
  {
    if BatchFrom(counter, maxRetries, items, exec, fallback).outcome.Throw? {
      var i := BatchThrowAt(counter, maxRetries, items, exec, fallback);
    } else {
      BatchResultAt(counter, maxRetries, items, exec, fallback);
    }
  }

  /** When every item succeeds on its first attempt, the batch is a plain
      order-preserving map of `exec` over the items, and the counter stays put. */
  lemma {:induction false} BatchIsMap(counter: int, maxRetries: int, items: seq<Value>,
                                      exec: (Value, int) -> Outcome, fallback: (Value, Value) -> Outcome)
    requires counter < maxRetries
    requires forall i :: 0 <= i < |items| ==> exec(items[i], counter).Ok?
    ensures var b := BatchFrom(counter, maxRetries, items, exec, fallback);
            && b.counter == counter
            && b.outcome.Ok?
            && |b.outcome.value| == |items|
            && forall i :: 0 <= i < |items| ==> b.outcome.value[i] == exec(items[i], counter).value
    decreases |items|
  {
    if items != [] {
      assert forall i :: 0 <= i < |items[1..]| ==> items[1..][i] == items[i + 1];
      BatchIsMap(counter, maxRetries, items[1..], exec, fallback);
    }
  }
}
