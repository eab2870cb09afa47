# typemock core, modelled in Dafny

This project models five self-contained parts of typemock, a type-checked mock-object library for Python:

- **Responders** (`responders.dfy`, module `Responders`). These produce the outcome of a matched call: a fixed value (`Basic`), a raised error (`Raise`), a forwarded callback (`Do`), or a list replayed one response per call (`ResponderMany`). `ResponderMany` is a class with a mutable cursor `index`. A ghost counter `calls` ties the cursor to `IndexAfter`, the cursor a fresh responder reaches after that many calls. The lemmas prove the whole run of outcomes: one-shot replay in order and then `NoBehaviourSpecified`, and looping replay of `responses[k mod n]`.
- **Matchers** (`match.dfy`, module `Match`). `MatchAny` and `InstanceMatcher` have asymmetric equality. Runtime types are an abstract nominal hierarchy given by a `TypeSystem`: the runtime type of each value and a subclass relation, which `WellFormed` requires to be reflexive and transitive. A deferred expected type is a resolver called at each match. It reads the program state at that moment, a parameter `w` of the match, and returns a type or the exception it raises, which the match then raises too. `PatternElemMatches` compares one recorded pattern element with one argument: a concrete element needs equality, and a wildcard uses its matcher's `__eq__`.
- **Type-hint validator** (`safety.dfy`, module `Safety`). The class description is supplied as data. A method has a name, its parameter names (including `self`) and the set of names in its `__annotations__`. An attribute has a name and an optional hint, where `None` stands for `Blank`. The validator methods run the source's nested loops and are proved equal to the specification function `MissingHints`. The lemmas prove against independent, front-to-back reference definitions: exact hints and counts, the ordering, and the behaviour of each mode.
- **Call-record queries** (`calls.dfy`, module `Calls`). `CallInfo` reads the record of canonical calls, each a `seq<(string, V)>`, through a `MethodState` object. The canonicaliser `_ordered_call` is an abstract function field of that object; it gives a canonical call or a binding error. `assert_called_with` compares the expected call with the last one the way Python's tuple `==` does: names by string equality, values by a supplied `valuesEqual`, which is Python's `==` with the expected value on the left, so a matcher in the expected call applies its own test. `CallsObject` is the name table that `calls(mock)` builds in a loop. When two states share a name, the last one wins, as with a dict filled in order.
- **Setup API guards** (`mock_setup.dfy`, module `MockSetup`). `tmock` refuses plain functions. `when` and `attr` classify their argument as a builder, an unawaited awaitable, or anything else. `setup_mock` brackets the body of its `with` block with enter and exit; these are recorded as a trace.

Four behaviours of the code a reader might not expect, all modelled as the code has them:
- A method whose signature has no parameters at all yields no hints, not even a RETURN hint, because the return check is nested inside the non-empty-signature branch.
- Only a parameter literally named `self` is exempt from the ARG check. Other receivers are not exempt.
- Attribute hints come before all method hints.
- A looping `ResponderMany` over an empty list does not "continue". It resets its cursor to 0 and then fails indexing the empty list. The model gives this an explicit outcome, `IndexOutOfRange`.

## Model

| member | source | states |
|---|---|---|
| `Responders.Respond` | typemock/_mock/responders.py:21-64 | `response` of the stateless responders: Basic returns its value, Raise raises its error, Do gives the callback's outcome on the arguments; only Do can end in anything but its stored value or error |
| `Responders.StepOutcome` | typemock/_mock/responders.py:44-53 | one call of ResponderMany from cursor `index`: only values from the list are ever returned, `responses[index]` while the cursor is inside the list; past the end a one-shot responder raises NoBehaviourSpecifiedError, a looping one wraps round and returns `responses[0]`, or fails on an empty list |
| `Responders.BasicIgnoresArguments` | typemock/_mock/responders.py:21-26 | ResponderBasic returns the stored value, and the same outcome for any two argument lists |
| `Responders.RaiseNeverReturns` | typemock/_mock/responders.py:29-34 | ResponderRaise never returns normally; it raises exactly the stored error |
| `Responders.DoForwardsToCallback` | typemock/_mock/responders.py:56-64 | ResponderDo's outcome is the callback's outcome on the forwarded arguments; the stored `ordered_call` makes no difference |
| `Responders.NextIndex` | typemock/_mock/responders.py:44-52 | one call never moves the cursor past `len(responses)` |
| `Responders.IndexAfter` | typemock/_mock/responders.py:38-53 | from a fresh responder (index 0), the cursor stays within 0..len(responses) after any number of calls |
| `Responders.OneShotIndex` | typemock/_mock/responders.py:43-53 | without looping, after k calls the cursor is min(k, n) |
| `Responders.OneShotReplaysInOrder` | typemock/_mock/responders.py:43-53 | without looping, call k < n (from 0) returns responses[k] |
| `Responders.OneShotExhausted` | typemock/_mock/responders.py:44-50 | without looping, every call from call n on raises NoBehaviourSpecifiedError and leaves the cursor at n |
| `Responders.LoopIndex` | typemock/_mock/responders.py:44-53 | with looping over n > 0 responses, q full rounds plus r calls (1 <= r <= n) leave the cursor at r |
| `Responders.LoopCycles` | typemock/_mock/responders.py:44-53 | with looping over n > 0 responses, call k (from 0) returns responses[k mod n] |
| `Responders.LoopOverNothing` | typemock/_mock/responders.py:44-51 | with looping over no responses, the cursor is reset to 0 and every call fails indexing the empty list |
| `Responders.ResponderMany.constructor` | typemock/_mock/responders.py:38-41 | a fresh responder keeps the list and loop flag, with index 0 |
| `Responders.ResponderMany.Response` | typemock/_mock/responders.py:43-53 | one call returns the outcome of call number `calls`, moves the cursor by one step, and keeps the cursor invariant |
| `Match.Resolve` | typemock/match.py:28-30 | a type is used as it is; a callable is called, in the program state of the match |
| `Match.Matches` | typemock/match.py:12-31 | MatchAny matches everything; an InstanceMatcher answers `isinstance` against the type resolved now, or raises what the resolver raised |
| `Match.Equals` | typemock/match.py:16-34 | `matcher == v` is exactly `matcher.matches(v)` for both matchers |
| `Match.Anything` | typemock/match.py:40-47 | `anything()` is the MatchAny matcher |
| `Match.InstanceOf` | typemock/match.py:50-54 | `instance_of(t)` is an InstanceMatcher whose expected type is t, already resolved |
| `Match.MatchAnyAcceptsEverything` | typemock/match.py:12-17 | MatchAny matches every value and `==` every value |
| `Match.InstanceOfMatchesIff` | typemock/match.py:27-31 | `instance_of(t)` never raises, and matches v iff v's runtime type is t or a subtype of t, in every program state |
| `Match.ExactInstanceMatches` | typemock/match.py:27-31 | an instance of exactly the expected type matches (reflexivity) |
| `Match.SubclassInstanceMatches` | typemock/match.py:27-31 | an instance of a subclass of a subclass of the base matches the base-type matcher (transitivity) |
| `Match.UnrelatedInstanceDoesNotMatch` | typemock/match.py:27-34 | an instance of an unrelated type neither matches nor compares equal |
| `Match.DeferredTypeResolvedOnMatch` | typemock/match.py:24-31 | a deferred expected type is resolved in the program state of the match: matching equals matching against the type it resolves to then, and a resolver that raises makes the match raise the same error |
| `Match.ForwardReferenceResolvedPerMatch` | typemock/match.py:27-31 | one deferred matcher raises while its forward-referenced class is undefined and matches once it is defined, which resolution at construction could not do |
| `Match.PatternElemMatches` | typemock/match.py:12-34 | a concrete pattern element requires equality; a matcher element answers what its matcher's `matches` answers, raising included |
| `Safety.ValidateMethodAnnotations` | typemock/_safety.py:10-29 | the loop over methods appends exactly the method hints, in enumeration order, to the given list |
| `Safety.AppendMethodHints` | typemock/_safety.py:14-29 | the loop over one method's parameters, then the return check, appends exactly that method's hints |
| `Safety.ValidateAttributes` | typemock/_safety.py:32-37 | the loop over attributes appends exactly the attribute hints, in order, to the given list |
| `Safety.GetMissingClassTypeHints` | typemock/_safety.py:40-46 | the collected list is the attribute hints followed by the method hints |
| `Safety.ValidateClassTypeHints` | typemock/_safety.py:49-70 | the mode defaults to STRICT; RELAXED accepts without computing hints; otherwise it raises MissingTypeHintsError iff the list is non-empty, naming the class and carrying the whole list |
| `Safety.ParameterHintsExact` | typemock/_safety.py:19-26 | a method's ARG hints are exactly one [method, p] per parameter p that is not `self` and not annotated, in signature order |
| `Safety.UnannotatedMembership` | typemock/_safety.py:19-26 | a parameter draws an ARG hint iff it is in the signature, is not `self` and is not annotated |
| `Safety.MethodHintsExact` | typemock/_safety.py:17-29 | an empty signature yields no hints; otherwise the ARG hints, then one RETURN hint iff one is due; and the count |
| `Safety.SelfNeverHinted` | typemock/_safety.py:20-21 | a parameter named `self` never yields a hint, annotated or not |
| `Safety.ReturnHintIff` | typemock/_safety.py:28-29 | the RETURN hint [method] is produced iff the signature is non-empty, the mode is not NO_RETURN_IS_NONE_RETURN and `return` is not annotated |
| `Safety.AttributesHintsExact` | typemock/_safety.py:33-37 | the ATTRIBUTE hints are exactly one [attr] per Blank attribute, in enumeration order |
| `Safety.HintCount` | typemock/_safety.py:40-46 | the total number of hints is the number of Blank attributes plus the sum of the per-method counts |
| `Safety.AttributeHintsComeFirst` | typemock/_safety.py:43-46 | every attribute hint precedes every method hint |
| `Safety.NoReturnModeHasNoReturnHints` | typemock/_safety.py:28-29 | in NO_RETURN_IS_NONE_RETURN mode every method hint is an ARG hint |
| `Calls.CallInfo.constructor` | typemock/_calls.py:15-16 | a CallInfo reads the method state it was given |
| `Calls.CallInfo.CallCount` | typemock/_calls.py:19-21 | `call_count` is the length of the call record |
| `Calls.CallInfo.CallArgs` | typemock/_calls.py:24-28 | `call_args` is None iff the record is empty, and otherwise the last recorded call |
| `Calls.CallInfo.CallArgsList` | typemock/_calls.py:31-33 | `call_args_list` has one entry per call, equal element by element and in order to the record |
| `Calls.CallInfo.AssertCalled` | typemock/_calls.py:35-40 | fails iff the count is 0, naming the method |
| `Calls.CallInfo.AssertCalledOnce` | typemock/_calls.py:42-48 | passes iff the count is 1; the failure names the method and reports the count |
| `Calls.CallInfo.AssertNotCalled` | typemock/_calls.py:50-56 | passes iff the record is empty; the failure names the method and reports the count |
| `Calls.CallInfo.AssertCalledWith` | typemock/_calls.py:58-71 | with no call, fails reporting the method and the expected arguments; otherwise a binding error of the expected arguments propagates; passes iff the canonical expected call compares equal (Python `==`, item by item) to the last call, and otherwise reports expected against actual |
| `Calls.CallInfo.AssertCalledOnceWith` | typemock/_calls.py:73-76 | passes iff there is exactly one call and it compares equal to the canonical expected call; a count other than 1 reports the count; with one call it is `assert_called_with` |
| `Calls.AssertionsAgree` | typemock/_calls.py:35-76 | `assert_not_called` passes iff `assert_called` fails; `assert_called_once_with` passes iff both `assert_called_once` and `assert_called_with` pass |
| `Calls.CallsEqualPairwise` | typemock/_calls.py:66-67 | Python's item-by-item `expected != actual` on canonical calls fails exactly when the calls differ in size, or in a name or value comparison at some position |
| `Calls.CallsEqualUnderIdentity` | typemock/_calls.py:66-67 | where values compare equal only to themselves, equal canonical calls are identical calls |
| `Calls.CalledWithUnderIdentity` | typemock/_calls.py:58-71 | without matchers, `assert_called_with` passes iff the expected arguments bind and canonicalise to exactly the last call |
| `Calls.WildcardsAcceptAnyValues` | typemock/_calls.py:58-71 | expected values that compare equal to everything, as `anything()` does, accept any last call with the same parameter names |
| `Calls.CallsEqual` | typemock/_calls.py:66-67 | `expected == actual` on two canonical calls: item by item from the left, names by string equality, values by `valuesEqual`; equal calls have the same size, agree at the first position, and an empty call equals only an empty call |
| `Calls.LastIndexNamed` | typemock/_calls.py:98-103 | the entry a dict filled in order keeps for a name is the last state with that name |
| `Calls.CallsObject.constructor` | typemock/_calls.py:98-103 | the table's keys are exactly the state names; each maps to a new CallInfo over the last state of that name; the object is then initialised |
| `Calls.CallsObject.GetAttribute` | typemock/_calls.py:105-112 | names starting with "_" bypass the table; another name gives its CallInfo iff the object is initialised and the name is in the table |
| `Calls.MakeCalls` | typemock/_calls.py:115-129 | `calls(mock)` gives, for each method name not starting with "_", the CallInfo of its state; unknown names fall back to ordinary attributes |
| `MockSetup.TMock` | typemock/_mock/__init__.py:30-59 | a plain function raises MockingError naming that function; any other target is passed to the mock constructor with the requested type safety, STRICT by default |
| `MockSetup.TMockDefaultsToStrict` | typemock/_mock/__init__.py:30-59 | `tmock(target)` with no mode passes the target to the mock constructor with STRICT type safety, the same as asking for STRICT |
| `MockSetup.When` | typemock/_mock/__init__.py:72-76 | a ResponseBuilder is returned unchanged; a non-builder awaitable raises the async error; anything else raises the context error |
| `MockSetup.Attr` | typemock/_mock/__init__.py:89-91 | a ResponseBuilder is returned unchanged; every other value raises the context error, awaitable or not |
| `MockSetup.WhenChecksBuilderFirst` | typemock/_mock/__init__.py:72-76 | a builder that is also awaitable is accepted: the builder check comes first |
| `MockSetup.WhenAgreesWithAttrExceptOnAwaitables` | typemock/_mock/__init__.py:72-91 | `when` and `attr` differ exactly on awaitables that are not builders |
| `MockSetup.SetupMock` | typemock/_mock/__init__.py:116-121 | enter happens exactly once, first; the given mock itself is yielded; exit happens exactly once, last, whether the body returns or raises; the body's exception propagates |

## Left out

- The mock object and its method state (typemock/_mock/object.py, typemock/_mock/methods.py) are not part of this model. That covers phase transitions, argument canonicalisation, runtime type checks, binding dispatch and appending to the call record. The queries take the record and the canonicaliser `orderedCall` as given. `MockObject` construction is represented only by the `Mock` value that `TMock` returns.
- Python reflection (`inspect.signature`, `__annotations__`, and `methods`, `attributes` and `try_instantiate_class` from `typemock._utils`) is replaced by the class description passed to the validator.
- `Safety.ValidateMethodAnnotations`, `Safety.ValidateAttributes` and `Safety.AppendMethodHints` receive the shared `missing` list as a value and return it extended. The source appends to one list object in place.
- `Safety.AppendMethodHints` is the body of the outer loop of `_validate_method_annotations` as a method of its own. This keeps each proof small; the order of appends is unchanged.
- `Match.Anything` and `Match.InstanceOf`: matchers are values here, so the identity of the `_MATCH_ANY` singleton and the freshness of each `instance_of` result are not modelled. `__hash__` is not modelled.
- The user callback of ResponderDo is an opaque function. Whether it raises is part of its `Outcome`.
- Exception message wording is not modelled. Each error carries the facts its message interpolates: `VerifyError` carries the method name and a `Failure` (`NotCalled` nothing more; `NotCalledWith` the expected arguments; `CalledTimes` the count; `CallMismatch` the expected and the actual call); `MissingTypeHintsError` carries the class name and the hints; `CannotMockFunction` carries the refused function. `NoBehaviourSpecified`, `ContextClosed` and `AsyncNotAwaited` have fixed messages and carry nothing. `ArgumentsNotBound` and `IndexOutOfRange` stand for Python's own TypeError and IndexError, whose text is not modelled.
- `MockSetup.TMock` and `MockSetup.TMockDefaultsToStrict`: failures of the mock constructor (typemock/_mock/object.py) are not modelled. They include the construction-time class-hint validation that `Safety.ValidateClassTypeHints` models, which raises MissingTypeHintsError for a class with a missing hint in a mode other than RELAXED. `Ok` therefore means the target was handed to the constructor, not that a mock was built.
- `Responders.ResponderMany` keeps its own copy of the response list. The source stores the caller's list object itself, so appending to or removing from that list after setup changes later responses; the model does not capture that aliasing.
- `Match.DeferredTypeResolvedOnMatch`: a resolver is a function of the program state passed to each match. Side effects the resolver itself has on that state are not modelled.
- `Calls.CallInfo.AssertCalledWith` and `Calls.CallInfo.AssertCalledOnceWith`: `valuesEqual` is a total boolean function. A value's `__eq__` that raises (for example a deferred matcher whose resolver raises) is not modelled, and neither is the identity shortcut of Python's container comparison, which treats an object as equal to itself without calling its `__eq__`.
- `CallsObject.GetAttribute` does not model what ordinary Python attribute resolution (`object.__getattribute__`) returns; it only marks that case as `Ordinary`.
- `SetupMock` assumes the mock's `__enter__` and `__exit__` succeed; they are abstract events in the trace.
- The typemock/__init__.py wrappers only forward keywords. The `_verify` façade and the async machinery are not part of this model. Of async, only the "is awaitable" flag matters, and only to `when`.
