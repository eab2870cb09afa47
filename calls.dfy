/**
 * Call-record queries (typemock/_calls.py): read-only views and assertions
 * over the ordered record of canonical calls a mocked method keeps, and the
 * table from method name to `CallInfo` that `calls(mock)` builds.
 *
 * The method state itself (typemock/_mock/methods.py) is not part of this
 * model: `MethodState` stands for the three members the queries read, the
 * name, the canonicaliser `_ordered_call` and the call record.
 */
module Calls {
  import opened Wrappers

  /** A canonical call: every formal parameter paired with its value, in declaration order. */
  type CanonicalCall<V> = seq<(string, V)>

  /** How canonicalising a call's arguments ends: a canonical call, or the TypeError of binding them to the signature. */
  datatype Binding<V> = Bound(call: CanonicalCall<V>) | BindingError

  /**
   * What an assertion does: return, raise VerifyError naming the method and
   * describing what was found, or let the binding error of the expected
   * arguments propagate.
   */
  datatype Verdict<A, V> = Passed | VerifyError(methodName: string, failure: Failure<A, V>) | ArgumentsNotBound

  /** The facts a VerifyError message reports besides the method name. */
  datatype Failure<A, V> =
    | NotCalled
    /** `assert_called_with` on a method never called reports the expected arguments. */
    | NotCalledWith(expectedArgs: A)
    | CalledTimes(count: nat)
    | CallMismatch(expected: CanonicalCall<V>, actual: CanonicalCall<V>)

  /**
   * Python's `expected == actual` on two canonical calls: tuples compared
   * item by item from the left, names by string equality and values by
   * `valuesEqual`, the value on the left choosing its `__eq__` (so a matcher
   * in the expected call applies its own test). Sizes decide once one side
   * runs out.
   */
  function CallsEqual<V>(expected: CanonicalCall<V>, actual: CanonicalCall<V>, valuesEqual: (V, V) -> bool): (equal: bool)
    ensures equal ==> |expected| == |actual|
    ensures equal && expected != [] ==> expected[0].0 == actual[0].0 && valuesEqual(expected[0].1, actual[0].1)
    ensures expected == [] ==> (equal <==> actual == [])
    decreases |expected|
  {
    if expected == [] || actual == [] then |expected| == |actual|
    else
      && expected[0].0 == actual[0].0
      && valuesEqual(expected[0].1, actual[0].1)
      && CallsEqual(expected[1..], actual[1..], valuesEqual)
  }

  /** Equal calls: the same size, and at each position the same name and values that compare equal. */
  ghost predicate PairwiseEqual<V>(expected: CanonicalCall<V>, actual: CanonicalCall<V>, valuesEqual: (V, V) -> bool)
  {
    && |expected| == |actual|
    && forall i :: 0 <= i < |expected| ==> expected[i].0 == actual[i].0 && valuesEqual(expected[i].1, actual[i].1)
  }

  /** The item-by-item comparison is position-wise equality of same-size calls. */
  lemma {:induction false} CallsEqualPairwise<V>(expected: CanonicalCall<V>, actual: CanonicalCall<V>, valuesEqual: (V, V) -> bool)
    ensures CallsEqual(expected, actual, valuesEqual) <==> PairwiseEqual(expected, actual, valuesEqual)
    decreases |expected|
  {
    if expected != [] && actual != [] {
      CallsEqualPairwise(expected[1..], actual[1..], valuesEqual);
      if PairwiseEqual(expected, actual, valuesEqual) {
        assert PairwiseEqual(expected[1..], actual[1..], valuesEqual) by {
          forall i | 0 <= i < |expected| - 1
            ensures expected[1..][i].0 == actual[1..][i].0 && valuesEqual(expected[1..][i].1, actual[1..][i].1)
          {
            assert expected[1..][i] == expected[i + 1] && actual[1..][i] == actual[i + 1];
          }
        }
      }
      if CallsEqual(expected, actual, valuesEqual) {
        forall i | 0 <= i < |expected|
          ensures expected[i].0 == actual[i].0 && valuesEqual(expected[i].1, actual[i].1)
        {
          if i > 0 {
            assert expected[1..][i - 1] == expected[i] && actual[1..][i - 1] == actual[i];
          }
        }
      }
    }
  }

  /** Where every value compares equal only to itself, equal calls are identical calls. */
  lemma CallsEqualUnderIdentity<V>(expected: CanonicalCall<V>, actual: CanonicalCall<V>)
    ensures CallsEqual(expected, actual, (x: V, y: V) => x == y) <==> expected == actual
  {
    var eq := (x: V, y: V) => x == y;
    CallsEqualPairwise(expected, actual, eq);
    if PairwiseEqual(expected, actual, eq) {
      assert forall i :: 0 <= i < |expected| ==> expected[i] == actual[i];
    }
  }

  /** The part of a mocked method's state the queries read; `A` stands for the positional and keyword arguments of a call. */
  class MethodState<A, V> {
    const name: string
    const orderedCall: A -> Binding<V>
    var callRecord: seq<CanonicalCall<V>>

    constructor (name: string, orderedCall: A -> Binding<V>, callRecord: seq<CanonicalCall<V>>)
      ensures this.name == name && this.orderedCall == orderedCall && this.callRecord == callRecord
    {
      this.name := name;
      this.orderedCall := orderedCall;
      this.callRecord := callRecord;
    }
  }

  /** CallInfo: information about the calls to one mocked method, read live from its state. */
  class CallInfo<A, V> {
    const methodState: MethodState<A, V>

    constructor (methodState: MethodState<A, V>)
      ensures this.methodState == methodState
    {
      this.methodState := methodState;
    }

    /** `call_count`: the number of recorded calls. */
    function CallCount(): (n: nat)
      reads methodState
      ensures n == |methodState.callRecord|
    {
      |methodState.callRecord|
    }

    /** `call_args`: None before any call, otherwise the most recent call. */
    function CallArgs(): (r: Option<CanonicalCall<V>>)
      reads methodState
      ensures r.None? <==> methodState.callRecord == []
      ensures r.Some? ==> r.value == methodState.callRecord[|methodState.callRecord| - 1]
    {
      if methodState.callRecord == [] then None
      else Some(methodState.callRecord[|methodState.callRecord| - 1])
    }

    /** `call_args_list`: a copy of the record, element by element and in order. */
    function CallArgsList(): (calls: seq<CanonicalCall<V>>)
      reads methodState
      ensures |calls| == CallCount()
      ensures forall i :: 0 <= i < |calls| ==> calls[i] == methodState.callRecord[i]
    {
      methodState.callRecord[..]
    }

    /** `assert_called`: fails iff the method was never called. */
    function AssertCalled(): (r: Verdict<A, V>)
      reads methodState
      ensures r.VerifyError? <==> CallCount() == 0
      ensures !r.ArgumentsNotBound?
      ensures r.VerifyError? ==> r == VerifyError(methodState.name, NotCalled)
    {
      if CallCount() == 0 then VerifyError(methodState.name, NotCalled) else Passed
    }

    /** `assert_called_once`: fails iff the count is not 1, reporting the count. */
    function AssertCalledOnce(): (r: Verdict<A, V>)
      reads methodState
      ensures r.Passed? <==> CallCount() == 1
      ensures !r.Passed? ==> r == VerifyError(methodState.name, CalledTimes(CallCount()))
    {
      if CallCount() != 1 then VerifyError(methodState.name, CalledTimes(CallCount())) else Passed
    }

    /** `assert_not_called`: fails iff the count is not 0, reporting the count. */
    function AssertNotCalled(): (r: Verdict<A, V>)
      reads methodState
      ensures r.Passed? <==> methodState.callRecord == []
      ensures !r.Passed? ==> r == VerifyError(methodState.name, CalledTimes(CallCount()))
    {
      if CallCount() != 0 then VerifyError(methodState.name, CalledTimes(CallCount())) else Passed
    }

    /**
     * `assert_called_with`: with no call, fails reporting the expected
     * arguments; otherwise canonicalises them (which may raise) and fails iff
     * the result does not compare equal to the last call under `valuesEqual`,
     * Python's `==` on argument values.
     */
    function AssertCalledWith(args: A, valuesEqual: (V, V) -> bool): (r: Verdict<A, V>)
      reads methodState
      ensures r.Passed? <==> && methodState.callRecord != []
                             && methodState.orderedCall(args).Bound?
                             && CallsEqual(methodState.orderedCall(args).call,
                                           methodState.callRecord[|methodState.callRecord| - 1], valuesEqual)
      ensures methodState.callRecord == [] ==> r == VerifyError(methodState.name, NotCalledWith(args))
      ensures r.ArgumentsNotBound? <==> methodState.callRecord != [] && methodState.orderedCall(args).BindingError?
      ensures methodState.callRecord != [] && r.VerifyError? ==>
        r == VerifyError(methodState.name,
                         CallMismatch(methodState.orderedCall(args).call, methodState.callRecord[|methodState.callRecord| - 1]))
    {
      if CallCount() == 0 then VerifyError(methodState.name, NotCalledWith(args))
      else
        match methodState.orderedCall(args)
        case BindingError => ArgumentsNotBound
        case Bound(expected) =>
          var actual := CallArgs().value;
          if !CallsEqual(expected, actual, valuesEqual) then VerifyError(methodState.name, CallMismatch(expected, actual))
          else Passed
    }

    /** `assert_called_once_with`: `assert_called_once`, then `assert_called_with`. */
    function AssertCalledOnceWith(args: A, valuesEqual: (V, V) -> bool): (r: Verdict<A, V>)
      reads methodState
      ensures r.Passed? <==> && |methodState.callRecord| == 1
                             && methodState.orderedCall(args).Bound?
                             && CallsEqual(methodState.orderedCall(args).call, methodState.callRecord[0], valuesEqual)
      ensures CallCount() != 1 ==> r == VerifyError(methodState.name, CalledTimes(CallCount()))
      ensures CallCount() == 1 ==> r == AssertCalledWith(args, valuesEqual)
    {
      var once := AssertCalledOnce();
      if once.VerifyError? then once else AssertCalledWith(args, valuesEqual)
    }
  }

  /** How the assertions relate to one another over the same record. */
  lemma AssertionsAgree<A, V>(info: CallInfo<A, V>, args: A, valuesEqual: (V, V) -> bool)
    ensures info.AssertNotCalled().Passed? <==> info.AssertCalled().VerifyError?
    ensures info.AssertCalledOnce().Passed? ==> info.AssertCalled().Passed?
    ensures info.AssertCalledOnceWith(args, valuesEqual).Passed?
            <==> info.AssertCalledOnce().Passed? && info.AssertCalledWith(args, valuesEqual).Passed?
  {
  }

  /** With values compared by identity, `assert_called_with` passes iff the canonical expected call is the last call. */
  lemma CalledWithUnderIdentity<A, V>(info: CallInfo<A, V>, args: A)
    ensures info.AssertCalledWith(args, (x: V, y: V) => x == y).Passed?
            <==> info.CallArgs().Some? && info.methodState.orderedCall(args) == Bound(info.CallArgs().value)
  {
    if info.CallArgs().Some? && info.methodState.orderedCall(args).Bound? {
      CallsEqualUnderIdentity(info.methodState.orderedCall(args).call, info.CallArgs().value);
    }
  }

  /**
   * Expected values that compare equal to everything, as `anything()` does,
   * accept any last call with the same parameter names.
   */
  lemma WildcardsAcceptAnyValues<A, V>(info: CallInfo<A, V>, args: A, valuesEqual: (V, V) -> bool)
    requires info.methodState.callRecord != [] && info.methodState.orderedCall(args).Bound?
    requires var expected, last := info.methodState.orderedCall(args).call, info.CallArgs().value;
             && |expected| == |last|
             && (forall i :: 0 <= i < |expected| ==> expected[i].0 == last[i].0)
             && (forall i, y :: 0 <= i < |expected| ==> valuesEqual(expected[i].1, y))
    ensures info.AssertCalledWith(args, valuesEqual).Passed?
  {
    CallsEqualPairwise(info.methodState.orderedCall(args).call, info.CallArgs().value, valuesEqual);
  }

  // ---------------------------------------------------------------------------
  // The name table of `calls(mock)`

  /** The names of the given method states. */
  function Names<A, V>(states: seq<MethodState<A, V>>): set<string>
  {
    set s | s in states :: s.name
  }

  /** The position of the last of the given states named `name`: the entry a dict filled in order keeps. */
  function LastIndexNamed<A, V>(states: seq<MethodState<A, V>>, name: string): (i: nat)
    requires name in Names(states)
    ensures i < |states| && states[i].name == name
    ensures forall j :: i < j < |states| ==> states[j].name != name
  {
    var last := states[|states| - 1];
    if last.name == name then |states| - 1
    else
      assert states == states[..|states| - 1] + [last];
      LastIndexNamed(states[..|states| - 1], name)
  }

  function LastNamed<A, V>(states: seq<MethodState<A, V>>, name: string): MethodState<A, V>
    requires name in Names(states)
  {
    states[LastIndexNamed(states, name)]
  }

  predicate StartsWithUnderscore(item: string)
  {
    |item| > 0 && item[0] == '_'
  }

  /** What attribute access on the calls object yields: a CallInfo from the table, or ordinary attribute resolution. */
  datatype Lookup<A, V> = Info(info: CallInfo<A, V>) | Ordinary

  /** `_CallsObject`: the table from method name to CallInfo, filled once at construction. */
  class CallsObject<A, V> {
    var methodInfos: map<string, CallInfo<A, V>>
    var initialised: bool

    constructor (states: seq<MethodState<A, V>>)
      ensures initialised
      ensures methodInfos.Keys == Names(states)
      ensures forall n :: n in methodInfos ==> methodInfos[n].methodState == LastNamed(states, n)
      ensures forall n :: n in methodInfos ==> fresh(methodInfos[n])
    {
      var infos: map<string, CallInfo<A, V>> := map[];
      var k := 0;
      while k < |states|
        invariant 0 <= k <= |states|
        invariant infos.Keys == Names(states[..k])
        invariant forall n :: n in infos ==> infos[n].methodState == LastNamed(states[..k], n)
        invariant forall n :: n in infos ==> fresh(infos[n])
      {
        assert states[..k + 1] == states[..k] + [states[k]];
        var info := new CallInfo(states[k]);
        infos := infos[states[k].name := info];
        k := k + 1;
      }
      assert states[..k] == states;
      methodInfos := infos;
      initialised := true;
    }

    /** `__getattribute__`: names starting with "_" bypass the table; other names found in it give their CallInfo. */
    function GetAttribute(item: string): (r: Lookup<A, V>)
      reads this
      ensures StartsWithUnderscore(item) ==> r.Ordinary?
      ensures r.Info? <==> !StartsWithUnderscore(item) && initialised && item in methodInfos
      ensures r.Info? ==> r.info == methodInfos[item]
    {
      if StartsWithUnderscore(item) then Ordinary
      else if initialised && item in methodInfos then Info(methodInfos[item])
      else Ordinary
    }
  }

  /** `calls(mock)`: every method-state name not starting with "_" looks up a CallInfo over the last state of that name. */
  method MakeCalls<A, V>(states: seq<MethodState<A, V>>) returns (c: CallsObject<A, V>)
    ensures fresh(c)
    ensures forall s :: s in states && !StartsWithUnderscore(s.name) ==>
      c.GetAttribute(s.name).Info? && c.GetAttribute(s.name).info.methodState == LastNamed(states, s.name)
    ensures forall item :: item !in Names(states) ==> c.GetAttribute(item).Ordinary?
  {
    c := new CallsObject(states);
  }
}
