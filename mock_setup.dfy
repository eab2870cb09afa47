/**
 * The setup API (typemock/_mock/__init__.py): the guard of `tmock` against
 * plain functions, the input checks of `when` and `attr`, and the
 * enter/exit bracketing of `setup_mock`.
 *
 * Values are classified only by what these checks ask of them. The mock
 * object's own `__enter__`/`__exit__` (typemock/_mock/object.py) are not
 * part of this model: they appear as events in a trace.
 */
module MockSetup {
  import Safety

  /** A Python value as the setup API sees it: an identity and the three instance checks it applies. */
  datatype Value = Value(identity: nat, isResponseBuilder: bool, isAwaitable: bool, isFunctionType: bool)

  datatype MockingErrorKind =
    /** Only objects and classes can be mocked; the message names the refused function. */
    | CannotMockFunction(refused: Value)
    /** No response builder was received: behaviour was specified outside a setup context. */
    | ContextClosed
    /** No response builder was received: an async method's call was not awaited. */
    | AsyncNotAwaited

  datatype Result<T> = Ok(value: T) | MockingError(kind: MockingErrorKind)

  /** A mock object built for `target`; its construction belongs to typemock/_mock/object.py. */
  datatype Mock = MockObject(target: Value, typeSafety: Safety.TypeSafety)

  /** `_tmock`: refuse a plain function; otherwise hand the target to the mock constructor with the requested type safety, STRICT unless asked otherwise. */
  function TMock(target: Value, typeSafety: Safety.TypeSafety := Safety.Strict): (r: Result<Mock>)
    ensures r.MockingError? <==> target.isFunctionType
    ensures r.MockingError? ==> r.kind == CannotMockFunction(target)
    ensures r.Ok? ==> r.value.target == target && r.value.typeSafety == typeSafety
  {
    if target.isFunctionType then MockingError(CannotMockFunction(target))
    else Ok(MockObject(target, typeSafety))
  }

  /** `_when`: a ResponseBuilder passes through unchanged; an awaitable gets the async error; anything else the context error. */
  function When(result: Value): (r: Result<Value>)
    ensures r.Ok? <==> result.isResponseBuilder
    ensures r.Ok? ==> r.value == result
    ensures !result.isResponseBuilder && result.isAwaitable ==> r == MockingError(AsyncNotAwaited)
    ensures !result.isResponseBuilder && !result.isAwaitable ==> r == MockingError(ContextClosed)
  {
    if !result.isResponseBuilder then
      if result.isAwaitable then MockingError(AsyncNotAwaited)
      else MockingError(ContextClosed)
    else Ok(result)
  }

  /** `_attr`: a ResponseBuilder passes through unchanged; everything else gets the context error, awaitable or not. */
  function Attr(access: Value): (r: Result<Value>)
    ensures r.Ok? <==> access.isResponseBuilder
    ensures r.Ok? ==> r.value == access
    ensures r.MockingError? ==> r.kind == ContextClosed
  {
    if !access.isResponseBuilder then MockingError(ContextClosed)
    else Ok(access)
  }

  /** The builder check comes before the awaitable check: a builder is accepted even if it is also awaitable. */
  lemma WhenChecksBuilderFirst(v: Value)
    requires v.isResponseBuilder
    ensures When(v) == Ok(v) && Attr(v) == Ok(v)
  {
  }

  /** `tmock(target)` without a mode asks the mock constructor for STRICT type safety. */
  lemma TMockDefaultsToStrict(target: Value)
    requires !target.isFunctionType
    ensures TMock(target).Ok? && TMock(target).value.typeSafety == Safety.Strict
    ensures TMock(target) == TMock(target, Safety.Strict)
  {
  }

  /** `when` and `attr` differ only on an awaitable that is not a builder. */
  lemma WhenAgreesWithAttrExceptOnAwaitables(v: Value)
    ensures When(v) != Attr(v) <==> !v.isResponseBuilder && v.isAwaitable
  {
  }

  // ---------------------------------------------------------------------------
  // setup_mock

  /** The effects `setup_mock` has on the mock and its caller, in order. */
  datatype Event = Enter(mock: Value) | Yield(value: Value) | Exit(mock: Value)

  /** How the body of the `with` block finishes. */
  datatype Completion = Normal | Raised(error: nat)

  /**
   * `setup_mock(mock)` used in a `with` block whose body is `body`: enter the
   * mock, yield it, and exit it in a `finally`, whether the body finished
   * normally or raised; the body's exception propagates unchanged.
   */
  method SetupMock(mock: Value, body: Value -> Completion) returns (trace: seq<Event>, completion: Completion)
    ensures |trace| == 3
    ensures trace[0] == Enter(mock) && trace[|trace| - 1] == Exit(mock)
    ensures trace[1] == Yield(mock)
    ensures completion == body(mock)
  {
    trace := [Enter(mock)];
    trace := trace + [Yield(mock)];
    completion := body(mock);
    trace := trace + [Exit(mock)];
  }
}
