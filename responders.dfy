/**
 * Responders (typemock/_mock/responders.py): the strategies that produce the
 * outcome of a call once a binding has matched it.
 *
 * ResponderBasic, ResponderRaise and ResponderDo are stateless and become the
 * variants of the datatype `Responder`; ResponderMany keeps a cursor into its
 * list of responses and becomes the class `ResponderMany`.
 */
module Responders {

  /** What one call of `response` does: return a value, or raise. */
  datatype Outcome<V, E> =
    | Returned(value: V)
    /** An error chosen by the test author (then_raise) or raised by a callback. */
    | Raised(error: E)
    /** NoBehaviourSpecifiedError: a non-looping ResponderMany has no responses left. */
    | NoBehaviourSpecified
    /** The IndexError of `responses[0]` on an empty list, which a looping ResponderMany over no responses runs into. */
    | IndexOutOfRange

  /**
   * The stateless responders. `A` stands for the positional and keyword
   * arguments a call forwards to `response`; `X` for the argument values of
   * a canonical call, the sequence of (parameter name, value) pairs that
   * `orderedCall` builds from them.
   */
  datatype Responder<!A, X, V, E> =
    | Basic(response: V)
    | Raise(error: E)
    /** `doFunction` is the author's callback, whose raising is part of its outcome; `orderedCall` is the canonicaliser it is built with. */
    | Do(doFunction: A -> Outcome<V, E>, orderedCall: A -> seq<(string, X)>)

  /** `response(*args, **kwargs)` of a stateless responder. */
  function Respond<A, X, V, E>(r: Responder<A, X, V, E>, args: A): (o: Outcome<V, E>)
    ensures r.Basic? ==> o == Returned(r.response)
    ensures r.Raise? ==> o == Raised(r.error)
    ensures r.Do? ==> o == r.doFunction(args)
    ensures o == NoBehaviourSpecified || o == IndexOutOfRange ==> r.Do?
  {
    match r
    case Basic(v) => Returned(v)
    case Raise(e) => Raised(e)
    case Do(f, _) => f(args)
  }

  /** ResponderBasic returns the stored value whatever the arguments are. */
  lemma BasicIgnoresArguments<A, X, V, E>(v: V, a: A, b: A)
    ensures Respond(Responder<A, X, V, E>.Basic(v), a) == Returned(v)
    ensures Respond(Responder<A, X, V, E>.Basic(v), a) == Respond(Responder<A, X, V, E>.Basic(v), b)
  {
  }

  /** ResponderRaise never returns normally: it raises exactly the stored error. */
  lemma RaiseNeverReturns<A, X, V, E>(e: E, a: A)
    ensures !Respond(Responder<A, X, V, E>.Raise(e), a).Returned?
    ensures Respond(Responder<A, X, V, E>.Raise(e), a) == Raised(e)
  {
  }

  /** ResponderDo forwards the arguments to the callback and does not consult its stored canonicaliser. */
  lemma DoForwardsToCallback<A, X, V, E>(f: A -> Outcome<V, E>, c1: A -> seq<(string, X)>, c2: A -> seq<(string, X)>, a: A)
    ensures Respond(Do(f, c1), a) == f(a)
    ensures Respond(Do(f, c1), a) == Respond(Do(f, c2), a)
  {
  }

  // ---------------------------------------------------------------------------
  // ResponderMany: one step of the cursor, and the run of calls from a fresh one

  /** The cursor after one call of `response` from cursor `index`. */
  function NextIndex<V>(responses: seq<V>, loop: bool, index: nat): (next: nat)
    requires index <= |responses|
    ensures next <= |responses|
  {
    if index > |responses| - 1 then
      if loop then (if |responses| == 0 then 0 else 1)
      else index
    else index + 1
  }

  /** The outcome of one call of `response` from cursor `index`. */
  function StepOutcome<V, E>(responses: seq<V>, loop: bool, index: nat): (o: Outcome<V, E>)
    requires index <= |responses|
    ensures o.Returned? ==> o.value in responses
    ensures !o.Raised?
    ensures index < |responses| ==> o == Returned(responses[index])
    ensures !loop ==> (o.Returned? <==> index < |responses|) && (o.Returned? || o == NoBehaviourSpecified)
    ensures loop ==> (o.Returned? <==> |responses| > 0) && (o.Returned? || o == IndexOutOfRange)
    ensures loop && index == |responses| && |responses| > 0 ==> o == Returned(responses[0])
  {
    if index > |responses| - 1 then
      if loop then (if |responses| == 0 then IndexOutOfRange else Returned(responses[0]))
      else NoBehaviourSpecified
    else Returned(responses[index])
  }

  /** The cursor of a fresh ResponderMany after `calls` calls of `response`. */
  function IndexAfter<V>(responses: seq<V>, loop: bool, calls: nat): (index: nat)
    ensures index <= |responses|
  {
    if calls == 0 then 0 else NextIndex(responses, loop, IndexAfter(responses, loop, calls - 1))
  }

  /** The outcome of call number `k` (counting from 0) of a fresh ResponderMany. */
  function NthOutcome<V, E>(responses: seq<V>, loop: bool, k: nat): Outcome<V, E>
  {
    StepOutcome(responses, loop, IndexAfter(responses, loop, k))
  }

  /** Without looping the cursor counts the calls up to the number of responses and then stays there. */
  lemma {:induction false} OneShotIndex<V>(responses: seq<V>, k: nat)
    ensures IndexAfter(responses, false, k) == if k <= |responses| then k else |responses|
  {
    if k > 0 {
      OneShotIndex(responses, k - 1);
    }
  }

  /** Without looping, calls 0 .. n-1 return the responses in order. */
  lemma OneShotReplaysInOrder<V, E>(responses: seq<V>, k: nat)
    requires k < |responses|
    ensures NthOutcome<V, E>(responses, false, k) == Returned(responses[k])
  {
    OneShotIndex(responses, k);
  }

  /** Without looping, every call from call n on raises NoBehaviourSpecifiedError and leaves the cursor at n. */
  lemma OneShotExhausted<V, E>(responses: seq<V>, k: nat)
    requires k >= |responses|
    ensures NthOutcome<V, E>(responses, false, k) == NoBehaviourSpecified
    ensures IndexAfter(responses, false, k) == IndexAfter(responses, false, k + 1) == |responses|
  {
    OneShotIndex(responses, k);
    OneShotIndex(responses, k + 1);
  }

  /** With looping over n > 0 responses, q full rounds and then r more calls (1 <= r <= n) leave the cursor at r. */
  lemma {:induction false} LoopIndex<V>(responses: seq<V>, q: nat, r: nat)
    requires 1 <= r <= |responses|
    ensures IndexAfter(responses, true, q * |responses| + r) == r
    decreases q, r
  {
    var n := |responses|;
    if r > 1 {
      LoopIndex(responses, q, r - 1);
    } else if q > 0 {
      assert q * n + r - 1 == (q - 1) * n + n;
      LoopIndex(responses, q - 1, n);
    }
  }

  /** With looping over n > 0 responses, call number k (from 0) returns responses[k mod n]. */
  lemma LoopCycles<V, E>(responses: seq<V>, k: nat)
    requires |responses| > 0
    ensures NthOutcome<V, E>(responses, true, k) == Returned(responses[k % |responses|])
  {
    var n := |responses|;
    var q, r := k / n, k % n;
    assert k == q * n + r;
    if r > 0 {
      LoopIndex(responses, q, r);
    } else if q > 0 {
      assert k == (q - 1) * n + n;
      LoopIndex(responses, q - 1, n);
    }
  }

  /** With looping over no responses, every call resets the cursor to 0 and fails on the empty list. */
  lemma LoopOverNothing<V, E>(responses: seq<V>, k: nat)
    requires |responses| == 0
    ensures IndexAfter(responses, true, k) == 0
    ensures NthOutcome<V, E>(responses, true, k) == IndexOutOfRange
  {
    // the cursor bound of IndexAfter already pins it to 0
  }

  /**
   * ResponderMany: replays `responses` one per call, from the start again
   * when `loop` holds. `calls` counts the calls of `response` so far.
   */
  class ResponderMany<V, E> {
    const responses: seq<V>
    const loop: bool
    var index: nat
    ghost var calls: nat

    /** The cursor is where `calls` calls from a fresh responder leave it; so 0 <= index <= |responses|. */
    ghost predicate Valid()
      reads this
    {
      index == IndexAfter(responses, loop, calls)
    }

    constructor (responses: seq<V>, loop: bool)
      ensures Valid()
      ensures this.responses == responses && this.loop == loop
      ensures index == 0 && calls == 0
    {
      this.responses := responses;
      this.loop := loop;
      index := 0;
      calls := 0;
    }

    /** `response(*args, **kwargs)`: the arguments are not consulted. */
    method Response<A>(args: A) returns (o: Outcome<V, E>)
      requires Valid()
      modifies this
      ensures Valid() && calls == old(calls) + 1
      ensures index <= |responses|
      ensures index == NextIndex(responses, loop, old(index))
      ensures o == NthOutcome(responses, loop, old(calls))
    {
      calls := calls + 1;
      if index > |responses| - 1 {
        if loop {
          index := 0;
        } else {
          o := NoBehaviourSpecified;
          return;
        }
      }
      if index >= |responses| {
        // `responses[0]` on an empty list raises before the cursor moves
        o := IndexOutOfRange;
        return;
      }
      o := Returned(responses[index]);
      index := index + 1;
    }
  }
}
