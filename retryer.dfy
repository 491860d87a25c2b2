/** The fixed-interval retry loop of internal/retryer.go. The handler is
    the environment's answer to each poll, given as a function of the
    poll's index; the sleep between polls is counted, not timed. */
module Retryer {
  import opened Wrappers

  datatype RetryResult = FinishRetry | ContinueRetry

  /** What one call of the handler returns. */
  datatype Poll = Poll(result: RetryResult, err: Option<Error>)

  /** What `Start` returns, with the number of handler calls and sleeps it made. */
  datatype Outcome = Outcome(err: Option<Error>, calls: nat, sleeps: nat)

  /** The poll that asks for another round. */
  const Continue := Poll(ContinueRetry, None)

  /** The loop of `Start` from index `i` on. */
  function RunFrom(i: nat, maxLimit: int, handler: nat -> Poll): Outcome
    decreases maxLimit - i
  {
    if i >= maxLimit then Outcome(Some(RetryTimeout), i, i)
    else
      var p := handler(i);
      if p.err.Some? then Outcome(Some(RetryFailure(p.err.value)), i + 1, i)
      else if p.result == FinishRetry then Outcome(None, i + 1, i)
      else RunFrom(i + 1, maxLimit, handler)
  }

  /** The whole run of `Start`. */
  function Run(maxLimit: int, handler: nat -> Poll): Outcome
  {
    RunFrom(0, maxLimit, handler)
  }

  function Budget(maxLimit: int): nat
  {
    if maxLimit < 0 then 0 else maxLimit
  }

  /** `FixedIntervalRetryer.Start` (internal/retryer.go:33-48). `indices` are
      the arguments the handler received, in order. */
  method Start(maxLimit: int, handler: nat -> Poll) returns (err: Option<Error>, indices: seq<nat>, sleeps: nat)
    ensures Outcome(err, |indices|, sleeps) == Run(maxLimit, handler)
    ensures forall k :: 0 <= k < |indices| ==> indices[k] == k
  {
    var i: nat := 0;
    indices, sleeps := [], 0;
    while i < maxLimit
      invariant RunFrom(i, maxLimit, handler) == Run(maxLimit, handler)
      invariant |indices| == i && sleeps == i
      invariant forall k :: 0 <= k < i ==> indices[k] == k
      decreases maxLimit - i
    {
      var p := handler(i);
      indices := indices + [i];
      if p.err.Some? {
        return Some(RetryFailure(p.err.value)), indices, sleeps;
      }
      if p.result == FinishRetry {
        return None, indices, sleeps;
      }
      sleeps := sleeps + 1;
      i := i + 1;
    }
    return Some(RetryTimeout), indices, sleeps;
  }

  /** Every run from `i` on: its shape, in terms of the handler's answers. */
  lemma {:induction false} RunFromShape(i: nat, maxLimit: int, handler: nat -> Poll)
    requires i <= Budget(maxLimit)
    ensures var o := RunFrom(i, maxLimit, handler);
      && i <= o.calls <= Budget(maxLimit)
      && (forall j :: i <= j < o.calls - 1 ==> handler(j) == Continue)
      && (o.err == Some(RetryTimeout) <==>
            o.calls == Budget(maxLimit) && forall j :: i <= j < o.calls ==> handler(j) == Continue)
      && (o.err == None <==> o.calls > i && handler(o.calls - 1) == Poll(FinishRetry, None))
      && (o.err.Some? && o.err.value.RetryFailure? <==> o.calls > i && handler(o.calls - 1).err.Some?)
      && (o.err.Some? && o.err.value.RetryFailure? ==> handler(o.calls - 1).err == Some(o.err.value.cause))
      && o.sleeps == (if o.err == Some(RetryTimeout) then o.calls else o.calls - 1)
    decreases maxLimit - i
  {
    if i < maxLimit {
      var p := handler(i);
      if p.err.None? && p.result == ContinueRetry {
        RunFromShape(i + 1, maxLimit, handler);
      }
    }
  }

  /** The run of `Start`: the handler is called at most `maxLimit` times, every
      call but the last asked to continue, the first `(FinishRetry, nil)` ends it
      with no error, a handler error ends it at once wrapped (whatever the
      result beside it), and if every call asked to continue it ends in
      `RetryTimeout`; one sleep follows each `ContinueRetry`. */
  lemma RunShape(maxLimit: int, handler: nat -> Poll)
    ensures var o := Run(maxLimit, handler);
      && o.calls <= Budget(maxLimit)
      && (forall j :: 0 <= j < o.calls - 1 ==> handler(j) == Continue)
      && (o.err == Some(RetryTimeout) <==>
            o.calls == Budget(maxLimit) && forall j :: 0 <= j < o.calls ==> handler(j) == Continue)
      && (o.err == None <==> o.calls > 0 && handler(o.calls - 1) == Poll(FinishRetry, None))
      && (o.err.Some? && o.err.value.RetryFailure? <==> o.calls > 0 && handler(o.calls - 1).err.Some?)
      && (o.err.Some? && o.err.value.RetryFailure? ==> handler(o.calls - 1).err == Some(o.err.value.cause))
      && o.sleeps == (if o.err == Some(RetryTimeout) then o.calls else o.calls - 1)
  {
    RunFromShape(0, maxLimit, handler);
  }

  /** A run against a handler that always gives the same answer `p`, as the
      deployer's polls do against a gateway that nothing changes meanwhile. */
  function ConstantRun(maxLimit: int, p: Poll): Outcome
  {
    if maxLimit <= 0 then Outcome(Some(RetryTimeout), 0, 0)
    else if p.err.Some? then Outcome(Some(RetryFailure(p.err.value)), 1, 0)
    else if p.result == FinishRetry then Outcome(None, 1, 0)
    else Outcome(Some(RetryTimeout), maxLimit, maxLimit)
  }

  lemma {:induction false} RunFromConstant(i: nat, maxLimit: int, handler: nat -> Poll, p: Poll)
    requires forall j :: handler(j) == p
    requires p == Continue
    requires i <= Budget(maxLimit)
    ensures RunFrom(i, maxLimit, handler) == Outcome(Some(RetryTimeout), Budget(maxLimit), Budget(maxLimit))
    decreases maxLimit - i
  {
    if i < maxLimit {
      RunFromConstant(i + 1, maxLimit, handler, p);
    }
  }

  /** `ConstantRun` is the run of any handler that always answers `p`. */
  lemma RunConstant(maxLimit: int, handler: nat -> Poll, p: Poll)
    requires forall j :: handler(j) == p
    ensures Run(maxLimit, handler) == ConstantRun(maxLimit, p)
  {
    if maxLimit > 0 && p.err.None? && p.result == ContinueRetry {
      RunFromConstant(0, maxLimit, handler, p);
    }
  }
}
