/** EventHandlerHelper.fireEvent: every handler runs, in list order, against the
    same target; a failing handler does not stop the others; after the loop the
    LAST failure, if any, is thrown once, wrapped in an EventHandlingException. */
module Event {
  import opened Base

  /** The invocations `fireEvent` makes: each handler once, in order, on `target`. */
  function Invocations<T>(handlers: seq<Handler>, target: T): (r: seq<(Handler, T)>)
    ensures |r| == |handlers|
    decreases |handlers|
  {
    if handlers == [] then []
    else Invocations(handlers[..|handlers| - 1], target) + [(handlers[|handlers| - 1], target)]
  }

  /** The i-th invocation is of the i-th handler, on the same target. */
  lemma {:induction false} InvocationsAt<T>(handlers: seq<Handler>, target: T)
    ensures forall i :: 0 <= i < |handlers| ==> Invocations(handlers, target)[i] == (handlers[i], target)
    decreases |handlers|
  {
    if handlers != [] {
      InvocationsAt(handlers[..|handlers| - 1], target);
    }
  }

  /** The exception raised by the last handler (in list order) that raises, if any. */
  function LastFailure<T>(handlers: seq<Handler>, target: T, behave: (Handler, T) -> Option<Exc>): Option<Exc>
    decreases |handlers|
  {
    if handlers == [] then None
    else if behave(handlers[|handlers| - 1], target).Some? then behave(handlers[|handlers| - 1], target)
    else LastFailure(handlers[..|handlers| - 1], target, behave)
  }

  /** LastFailure is None exactly when no handler raises, and otherwise what
      the last raising handler throws. */
  lemma {:induction false} LastFailureIsLast<T>(handlers: seq<Handler>, target: T, behave: (Handler, T) -> Option<Exc>)
    ensures var r := LastFailure(handlers, target, behave);
      (r.None? <==> forall i :: 0 <= i < |handlers| ==> behave(handlers[i], target).None?) &&
      (r.Some? ==>
        exists k :: 0 <= k < |handlers| && behave(handlers[k], target) == r &&
          forall j :: k < j < |handlers| ==> behave(handlers[j], target).None?)
    decreases |handlers|
  {
    if handlers != [] {
      var n := |handlers| - 1;
      var init := handlers[..n];
      LastFailureIsLast(init, target, behave);
      if behave(handlers[n], target).None? {
        assert forall i :: 0 <= i < n ==> init[i] == handlers[i];
        var r := LastFailure(init, target, behave);
        if r.Some? {
          var k :| 0 <= k < |init| && behave(init[k], target) == r &&
            forall j :: k < j < |init| ==> behave(init[j], target).None?;
          assert behave(handlers[k], target) == r;
        }
      }
    }
  }

  /** How `fireEvent` ends. */
  function Fire<T>(handlers: seq<Handler>, target: T, behave: (Handler, T) -> Option<Exc>): Outcome
  {
    match LastFailure(handlers, target, behave)
    case None => Normal
    case Some(e) => Raised(EventHandling(e))
  }

  /** EventHandlerHelper.fireEvent. `behave(h, t)` is what handler `h` does when
      handed `t`: `None` if it returns, `Some(e)` if it throws `e`. */
  method FireEvent<T>(handlers: seq<Handler>, target: T, behave: (Handler, T) -> Option<Exc>)
    returns (out: Outcome, ghost invoked: seq<(Handler, T)>)
    ensures invoked == Invocations(handlers, target)
    ensures out == Fire(handlers, target, behave)
  {
    var thrown: Option<Exc> := None;
    invoked := [];
    for i := 0 to |handlers|
      invariant thrown == LastFailure(handlers[..i], target, behave)
      invariant invoked == Invocations(handlers[..i], target)
    {
      var handler := handlers[i];
      assert handlers[..i + 1][..i] == handlers[..i];
      invoked := invoked + [(handler, target)];
      var raised := behave(handler, target);
      if raised.Some? {
        thrown := raised;
      }
    }
    assert handlers[..|handlers|] == handlers;
    if thrown.Some? {
      out := Raised(EventHandling(thrown.value));
    } else {
      out := Normal;
    }
  }

  /** No handler raises exactly when `fireEvent` returns normally. */
  lemma FireNormalIff<T>(handlers: seq<Handler>, target: T, behave: (Handler, T) -> Option<Exc>)
    ensures Fire(handlers, target, behave) == Normal <==>
      forall i :: 0 <= i < |handlers| ==> behave(handlers[i], target).None?
  {
    LastFailureIsLast(handlers, target, behave);
  }

  /** When some handler raises, exactly one EventHandlingException is thrown, and
      its cause is what the last raising handler threw; earlier failures are lost. */
  lemma FireRaisesLastFailure<T>(handlers: seq<Handler>, target: T, behave: (Handler, T) -> Option<Exc>, k: nat)
    requires k < |handlers| && behave(handlers[k], target).Some?
    requires forall j :: k < j < |handlers| ==> behave(handlers[j], target).None?
    ensures Fire(handlers, target, behave) == Raised(EventHandling(behave(handlers[k], target).value))
  {
    var r := LastFailure(handlers, target, behave);
    LastFailureIsLast(handlers, target, behave);
    assert r.Some?;
    var k' :| 0 <= k' < |handlers| && behave(handlers[k'], target) == r &&
      forall j :: k' < j < |handlers| ==> behave(handlers[j], target).None?;
    assert k' == k;
  }

  /** The outcome of firing a list is decided by its tail: a failure among the
      later handlers hides every failure among the earlier ones. */
  lemma {:induction false} FireConcat<T>(first: seq<Handler>, second: seq<Handler>, target: T, behave: (Handler, T) -> Option<Exc>)
    ensures Fire(first + second, target, behave) ==
      if Fire(second, target, behave).Raised? then Fire(second, target, behave) else Fire(first, target, behave)
    ensures Invocations(first + second, target) == Invocations(first, target) + Invocations(second, target)
    decreases |second|
  {
    if second == [] {
      assert first + second == first;
    } else {
      var n := |second| - 1;
      assert (first + second)[..|first + second| - 1] == first + second[..n];
      assert second[..n] + [second[n]] == second;
      FireConcat(first, second[..n], target, behave);
    }
  }
}
