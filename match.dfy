/**
 * Matchers (typemock/match.py): wildcard values that stand in for a concrete
 * argument in a pattern recorded during setup, with asymmetric equality.
 *
 * Runtime types are an abstract nominal hierarchy: a `TypeSystem` gives the
 * runtime type of every value and the subclass relation between types.
 * A deferred expected type is a resolver that is called at every match; it
 * reads the state of the program at that moment (`W`, for example which
 * module-level names are defined yet) and may raise.
 */
module Match {

  /** The host's types: `typeOf(v)` is `type(v)`, `isSubtype(s, t)` is `issubclass(s, t)`. */
  datatype TypeSystem<!V, !T> = TypeSystem(typeOf: V -> T, isSubtype: (T, T) -> bool)

  /** `issubclass` is reflexive and transitive. */
  ghost predicate WellFormed<V, T(!new)>(ts: TypeSystem<V, T>)
  {
    && (forall t :: ts.isSubtype(t, t))
    && (forall a, b, c :: ts.isSubtype(a, b) && ts.isSubtype(b, c) ==> ts.isSubtype(a, c))
  }

  /** `isinstance(v, t)`: the runtime type of `v` is `t` or one of its subtypes. */
  predicate IsInstance<V, T>(ts: TypeSystem<V, T>, v: V, t: T)
  {
    ts.isSubtype(ts.typeOf(v), t)
  }

  /** What calling a deferred resolver gives: a type, or the exception it raises. */
  datatype Resolution<T> = Type(t: T) | ResolveError(error: string)

  /** The `expected_type` of an InstanceMatcher: a type, or a callable that produces one when asked. */
  datatype ExpectedType<!W, !T> = Resolved(t: T) | Deferred(resolve: W -> Resolution<T>)

  datatype Matcher<!W, !T> = MatchAny | InstanceMatcher(expectedType: ExpectedType<W, T>)

  /** What `matches` or `==` does: answer, or let the resolver's exception propagate. */
  datatype MatchResult = Answer(matched: bool) | Raised(error: string)

  /** The type an `expected_type` stands for in program state `w`: a type is used as it is, a callable is called. */
  function Resolve<W, T>(e: ExpectedType<W, T>, w: W): (r: Resolution<T>)
    ensures e.Resolved? ==> r == Type(e.t)
    ensures e.Deferred? ==> r == e.resolve(w)
  {
    match e
    case Resolved(t) => Type(t)
    case Deferred(f) => f(w)
  }

  /** `matcher.matches(v)` in program state `w`. */
  function Matches<V, W, T>(ts: TypeSystem<V, T>, m: Matcher<W, T>, v: V, w: W): (r: MatchResult)
    ensures m.MatchAny? ==> r == Answer(true)
    ensures m.InstanceMatcher? && Resolve(m.expectedType, w).Type? ==>
      r == Answer(IsInstance(ts, v, Resolve(m.expectedType, w).t))
    ensures m.InstanceMatcher? && Resolve(m.expectedType, w).ResolveError? ==>
      r == Raised(Resolve(m.expectedType, w).error)
  {
    match m
    case MatchAny => Answer(true)
    case InstanceMatcher(e) =>
      match Resolve(e, w)
      case Type(t) => Answer(IsInstance(ts, v, t))
      case ResolveError(err) => Raised(err)
  }

  /** `matcher == v`: each matcher overrides `__eq__` on its own, and both agree with `matches`. */
  function Equals<V, W, T>(ts: TypeSystem<V, T>, m: Matcher<W, T>, v: V, w: W): (r: MatchResult)
    ensures r == Matches(ts, m, v, w)
  {
    match m
    case MatchAny => Answer(true)
    case InstanceMatcher(_) => Matches(ts, m, v, w)
  }

  /** `anything()`: the one MatchAny matcher. */
  function Anything<W, T>(): (m: Matcher<W, T>)
    ensures m.MatchAny?
  {
    MatchAny
  }

  /** `instance_of(t)`: a matcher whose expected type is `t`. */
  function InstanceOf<W, T>(t: T): (m: Matcher<W, T>)
    ensures m.InstanceMatcher? && m.expectedType.Resolved? && m.expectedType.t == t
  {
    InstanceMatcher(Resolved(t))
  }

  /** MatchAny matches every value and compares equal to every value, in every program state. */
  lemma MatchAnyAcceptsEverything<V, W, T>(ts: TypeSystem<V, T>, v: V, w: W)
    ensures Matches(ts, Anything(), v, w) == Answer(true)
    ensures Equals(ts, Anything(), v, w) == Answer(true)
  {
  }

  /** `instance_of(t)` never raises, and matches `v` exactly when `v` is an instance of `t` or of a subtype of `t`. */
  lemma InstanceOfMatchesIff<V, W, T>(ts: TypeSystem<V, T>, t: T, v: V, w: W)
    ensures Matches(ts, InstanceOf(t), v, w) == Answer(ts.isSubtype(ts.typeOf(v), t))
  {
  }

  /** An instance of the expected type itself matches. */
  lemma ExactInstanceMatches<V, W, T(!new)>(ts: TypeSystem<V, T>, t: T, v: V, w: W)
    requires WellFormed(ts)
    requires ts.typeOf(v) == t
    ensures Matches(ts, InstanceOf(t), v, w) == Answer(true)
  {
    assert ts.isSubtype(t, t);
  }

  /** An instance of a subclass of a subclass of `base` matches `instance_of(base)`. */
  lemma SubclassInstanceMatches<V, W, T(!new)>(ts: TypeSystem<V, T>, sub: T, base: T, v: V, w: W)
    requires WellFormed(ts)
    requires ts.isSubtype(ts.typeOf(v), sub) && ts.isSubtype(sub, base)
    ensures Matches(ts, InstanceOf(base), v, w) == Answer(true)
    ensures Equals(ts, InstanceOf(base), v, w) == Answer(true)
  {
    assert ts.isSubtype(ts.typeOf(v), base);
  }

  /** An instance of a type unrelated to the expected one neither matches nor compares equal. */
  lemma UnrelatedInstanceDoesNotMatch<V, W, T>(ts: TypeSystem<V, T>, t: T, v: V, w: W)
    requires !ts.isSubtype(ts.typeOf(v), t)
    ensures Matches(ts, InstanceOf(t), v, w) == Answer(false)
    ensures Equals(ts, InstanceOf(t), v, w) == Answer(false)
  {
  }

  /**
   * A deferred expected type is resolved in the program state of the match:
   * matching is then matching against the type resolved at that moment, and
   * a resolver that raises makes the match raise the same exception.
   */
  lemma DeferredTypeResolvedOnMatch<V, W, T>(ts: TypeSystem<V, T>, f: W -> Resolution<T>, v: V, w: W)
    ensures f(w).Type? ==> Matches(ts, InstanceMatcher(Deferred(f)), v, w) == Matches(ts, InstanceOf(f(w).t), v, w)
    ensures f(w).ResolveError? ==> Matches(ts, InstanceMatcher(Deferred(f)), v, w) == Raised(f(w).error)
  {
  }

  /**
   * A forward reference: one deferred matcher raises while the referenced
   * class is not defined yet and matches once it is. A matcher that resolved
   * its type at construction could not behave both ways.
   */
  lemma ForwardReferenceResolvedPerMatch()
    ensures var ts := TypeSystem((v: int) => v, (a: int, b: int) => a == b);
            var m := InstanceMatcher(Deferred((defined: bool) => if defined then Type(7) else ResolveError("NameError")));
            Matches(ts, m, 7, false) == Raised("NameError") && Matches(ts, m, 7, true) == Answer(true)
  {
  }

  // ---------------------------------------------------------------------------
  // Pattern elements: a recorded argument is either a concrete value or a matcher

  datatype PatternElem<V, !W, !T> = Concrete(value: V) | Wildcard(matcher: Matcher<W, T>)

  /** Whether a recorded pattern element compares equal to a concrete argument value: equality, or the matcher's `__eq__`. */
  function PatternElemMatches<V(==), W, T>(ts: TypeSystem<V, T>, p: PatternElem<V, W, T>, v: V, w: W): (r: MatchResult)
    ensures p.Concrete? ==> r == Answer(p.value == v)
    ensures p.Wildcard? ==> r == Matches(ts, p.matcher, v, w)
  {
    match p
    case Concrete(c) => Answer(c == v)
    case Wildcard(m) => Equals(ts, m, v, w)
  }
}
