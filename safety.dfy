/**
 * Type-hint validation (typemock/_safety.py): walks a class description and
 * collects every missing annotation as a `MissingHint`, attributes first,
 * then methods, each in enumeration order; outside RELAXED mode a non-empty
 * list fails mock construction with one MissingTypeHintsError carrying it.
 *
 * The class description is supplied as data instead of being read by
 * reflection; the list of hints that the source threads through its helper
 * functions and appends to is passed in and handed back extended.
 */
module Safety {
  import opened Wrappers

  datatype TypeSafety = Strict | NoReturnIsNoneReturn | Relaxed

  datatype MemberType = Arg | Return | Attribute

  datatype MissingHint = MissingHint(path: seq<string>, memberType: MemberType)

  /** A method as `inspect.signature` and `__annotations__` see it: its parameter names (a receiver `self` included) and its annotated names. */
  datatype MethodEntry = MethodEntry(name: string, parameters: seq<string>, annotations: set<string>)

  /** An attribute and its type hint; `None` is the `Blank` marker. */
  datatype AttributeEntry = AttributeEntry(name: string, typeHint: Option<string>)

  datatype ClassDescription = ClassDescription(name: string, methods: seq<MethodEntry>, attributes: seq<AttributeEntry>)

  /** The result of `validate_class_type_hints`: it returns, or raises MissingTypeHintsError naming the class and carrying the hints. */
  datatype Validation = Accepted | MissingTypeHintsError(className: string, hints: seq<MissingHint>)

  const SelfName := "self"
  const ReturnKey := "return"

  // ---------------------------------------------------------------------------
  // The hints, defined over the enumeration order (last element peeled off)

  /** The hint, if any, for one parameter of method `method`. */
  function ParameterHint(methodName: string, parameter: string, annotations: set<string>): seq<MissingHint>
  {
    if parameter == SelfName || parameter in annotations then []
    else [MissingHint([methodName, parameter], Arg)]
  }

  function ParameterHints(methodName: string, parameters: seq<string>, annotations: set<string>): seq<MissingHint>
  {
    if parameters == [] then []
    else ParameterHints(methodName, parameters[..|parameters| - 1], annotations)
         + ParameterHint(methodName, parameters[|parameters| - 1], annotations)
  }

  /** The return check applies: the mode does not read a missing return annotation as `None`, and there is none. */
  predicate ReturnHintDue(m: MethodEntry, mode: TypeSafety)
  {
    mode != NoReturnIsNoneReturn && ReturnKey !in m.annotations
  }

  /** The hints of one method; the return check sits inside the non-empty-signature branch. */
  function MethodHints(m: MethodEntry, mode: TypeSafety): seq<MissingHint>
  {
    if |m.parameters| > 0 then
      ParameterHints(m.name, m.parameters, m.annotations)
      + (if ReturnHintDue(m, mode) then [MissingHint([m.name], Return)] else [])
    else []
  }

  function MethodsHints(methods: seq<MethodEntry>, mode: TypeSafety): seq<MissingHint>
  {
    if methods == [] then []
    else MethodsHints(methods[..|methods| - 1], mode) + MethodHints(methods[|methods| - 1], mode)
  }

  function AttributeHint(a: AttributeEntry): seq<MissingHint>
  {
    if a.typeHint.None? then [MissingHint([a.name], Attribute)] else []
  }

  function AttributesHints(attributes: seq<AttributeEntry>): seq<MissingHint>
  {
    if attributes == [] then []
    else AttributesHints(attributes[..|attributes| - 1]) + AttributeHint(attributes[|attributes| - 1])
  }

  /** `get_missing_class_type_hints`: attribute hints, then method hints. */
  function MissingHints(cls: ClassDescription, mode: TypeSafety): seq<MissingHint>
  {
    AttributesHints(cls.attributes) + MethodsHints(cls.methods, mode)
  }

  // ---------------------------------------------------------------------------
  // The validator as the source runs it

  /** `_validate_method_annotations`: appends the hints of every method to `missing`. */
  method ValidateMethodAnnotations(methods: seq<MethodEntry>, mode: TypeSafety, missing: seq<MissingHint>)
    returns (extended: seq<MissingHint>)
    ensures extended == missing + MethodsHints(methods, mode)
  {
    extended := missing;
    var k := 0;
    while k < |methods|
      invariant 0 <= k <= |methods|
      invariant extended == missing + MethodsHints(methods[..k], mode)
    {
      extended := AppendMethodHints(methods[k], mode, extended);
      MethodsHintsPrefix(methods, mode, k, missing);
      k := k + 1;
    }
    assert methods[..k] == methods;
  }

  /** The body of the loop over methods in `_validate_method_annotations`, for one method. */
  method AppendMethodHints(m: MethodEntry, mode: TypeSafety, missing: seq<MissingHint>)
    returns (extended: seq<MissingHint>)
    ensures extended == missing + MethodHints(m, mode)
  {
    extended := missing;
    if |m.parameters| > 0 {
      var j := 0;
      while j < |m.parameters|
        invariant 0 <= j <= |m.parameters|
        invariant extended == missing + ParameterHints(m.name, m.parameters[..j], m.annotations)
      {
        var p := m.parameters[j];
        ParameterHintsPrefix(m.name, m.parameters, m.annotations, j);
        if p == SelfName {
          // the receiver is never checked
        } else if p !in m.annotations {
          extended := extended + [MissingHint([m.name, p], Arg)];
        }
        j := j + 1;
      }
      assert m.parameters[..j] == m.parameters;
      if mode != NoReturnIsNoneReturn && ReturnKey !in m.annotations {
        extended := extended + [MissingHint([m.name], Return)];
      }
    }
  }

  lemma ParameterHintsPrefix(methodName: string, parameters: seq<string>, annotations: set<string>, j: nat)
    requires j < |parameters|
    ensures ParameterHints(methodName, parameters[..j + 1], annotations)
            == ParameterHints(methodName, parameters[..j], annotations) + ParameterHint(methodName, parameters[j], annotations)
  {
    assert parameters[..j + 1][..j] == parameters[..j];
  }

  lemma MethodsHintsPrefix(methods: seq<MethodEntry>, mode: TypeSafety, k: nat, missing: seq<MissingHint>)
    requires k < |methods|
    ensures missing + MethodsHints(methods[..k + 1], mode)
            == (missing + MethodsHints(methods[..k], mode)) + MethodHints(methods[k], mode)
  {
    assert methods[..k + 1][..k] == methods[..k];
  }

  /** `_validate_attributes`: appends a hint for every attribute without a type hint to `missing`. */
  method ValidateAttributes(attributes: seq<AttributeEntry>, missing: seq<MissingHint>)
    returns (extended: seq<MissingHint>)
    ensures extended == missing + AttributesHints(attributes)
  {
    extended := missing;
    var k := 0;
    while k < |attributes|
      invariant 0 <= k <= |attributes|
      invariant extended == missing + AttributesHints(attributes[..k])
    {
      assert attributes[..k + 1][..k] == attributes[..k];
      if attributes[k].typeHint.None? {
        extended := extended + [MissingHint([attributes[k].name], Attribute)];
      }
      k := k + 1;
    }
    assert attributes[..k] == attributes;
  }

  /** `get_missing_class_type_hints`. */
  method GetMissingClassTypeHints(cls: ClassDescription, mode: TypeSafety) returns (missing: seq<MissingHint>)
    ensures missing == MissingHints(cls, mode)
  {
    missing := ValidateAttributes(cls.attributes, []);
    missing := ValidateMethodAnnotations(cls.methods, mode, missing);
  }

  /** `validate_class_type_hints`: nothing in RELAXED mode; otherwise fail with the whole list iff it is non-empty. The mode is STRICT unless given. */
  method ValidateClassTypeHints(cls: ClassDescription, mode: TypeSafety := Strict) returns (r: Validation)
    ensures mode == Relaxed ==> r == Accepted
    ensures mode != Relaxed ==> (r.MissingTypeHintsError? <==> MissingHints(cls, mode) != [])
    ensures r.MissingTypeHintsError? ==> r.className == cls.name && r.hints == MissingHints(cls, mode)
  {
    if mode == Relaxed {
      return Accepted;
    }
    var missing := GetMissingClassTypeHints(cls, mode);
    if |missing| > 0 {
      return MissingTypeHintsError(cls.name, missing);
    }
    return Accepted;
  }

  // ---------------------------------------------------------------------------
  // Reference definitions, read front to back, and the lemmas connecting them

  /** The parameters that draw an ARG hint, in signature order. */
  function Unannotated(parameters: seq<string>, annotations: set<string>): seq<string>
  {
    if parameters == [] then []
    else (if parameters[0] == SelfName || parameters[0] in annotations then [] else [parameters[0]])
         + Unannotated(parameters[1..], annotations)
  }

  /** The attributes whose type hint is Blank, in enumeration order. */
  function BlankAttributes(attributes: seq<AttributeEntry>): seq<string>
  {
    if attributes == [] then []
    else (if attributes[0].typeHint.None? then [attributes[0].name] else [])
         + BlankAttributes(attributes[1..])
  }

  /** One ARG hint with path [method, p] for each name p, in order. */
  function ArgHints(methodName: string, names: seq<string>): (hints: seq<MissingHint>)
    ensures |hints| == |names|
  {
    seq(|names|, i requires 0 <= i < |names| => MissingHint([methodName, names[i]], Arg))
  }

  /** One ATTRIBUTE hint with path [a] for each name a, in order. */
  function AttrHints(names: seq<string>): (hints: seq<MissingHint>)
    ensures |hints| == |names|
  {
    seq(|names|, i requires 0 <= i < |names| => MissingHint([names[i]], Attribute))
  }

  /** The number of hints a method yields, counted without building them. */
  function MethodHintCount(m: MethodEntry, mode: TypeSafety): nat
  {
    if |m.parameters| == 0 then 0
    else |Unannotated(m.parameters, m.annotations)| + (if ReturnHintDue(m, mode) then 1 else 0)
  }

  function MethodsHintCount(methods: seq<MethodEntry>, mode: TypeSafety): nat
  {
    if methods == [] then 0 else MethodHintCount(methods[0], mode) + MethodsHintCount(methods[1..], mode)
  }

  lemma {:induction false} UnannotatedAppend(parameters: seq<string>, p: string, annotations: set<string>)
    ensures Unannotated(parameters + [p], annotations)
            == Unannotated(parameters, annotations) + Unannotated([p], annotations)
  {
    if parameters != [] {
      assert (parameters + [p])[1..] == parameters[1..] + [p];
      UnannotatedAppend(parameters[1..], p, annotations);
    }
  }

  /** A parameter draws an ARG hint iff it is not `self` and not annotated. */
  lemma {:induction false} UnannotatedMembership(parameters: seq<string>, annotations: set<string>, p: string)
    ensures p in Unannotated(parameters, annotations)
            <==> p in parameters && p != SelfName && p !in annotations
  {
    if parameters != [] {
      UnannotatedMembership(parameters[1..], annotations, p);
      assert parameters == [parameters[0]] + parameters[1..];
    }
  }

  /** The ARG hints of a method are exactly one per unannotated non-`self` parameter, in signature order. */
  lemma {:induction false} ParameterHintsExact(methodName: string, parameters: seq<string>, annotations: set<string>)
    ensures ParameterHints(methodName, parameters, annotations) == ArgHints(methodName, Unannotated(parameters, annotations))
  {
    if parameters != [] {
      var init, last := parameters[..|parameters| - 1], parameters[|parameters| - 1];
      ParameterHintsExact(methodName, init, annotations);
      assert parameters == init + [last];
      UnannotatedAppend(init, last, annotations);
    }
  }

  /** A method's hints: none for an empty signature; otherwise its ARG hints, then a RETURN hint iff one is due. */
  lemma MethodHintsExact(m: MethodEntry, mode: TypeSafety)
    ensures |m.parameters| == 0 ==> MethodHints(m, mode) == []
    ensures |m.parameters| > 0 ==>
      MethodHints(m, mode) == ArgHints(m.name, Unannotated(m.parameters, m.annotations))
                              + (if ReturnHintDue(m, mode) then [MissingHint([m.name], Return)] else [])
    ensures |MethodHints(m, mode)| == MethodHintCount(m, mode)
  {
    ParameterHintsExact(m.name, m.parameters, m.annotations);
  }

  /** A parameter named `self` never yields a hint, annotated or not. */
  lemma SelfNeverHinted(m: MethodEntry, mode: TypeSafety)
    ensures forall h :: h in MethodHints(m, mode) ==> h.path != [m.name, SelfName]
  {
    MethodHintsExact(m, mode);
    UnannotatedMembership(m.parameters, m.annotations, SelfName);
  }

  /** A method yields the RETURN hint [name] iff its signature is non-empty and the return check is due. */
  lemma ReturnHintIff(m: MethodEntry, mode: TypeSafety)
    ensures MissingHint([m.name], Return) in MethodHints(m, mode)
            <==> |m.parameters| > 0 && ReturnHintDue(m, mode)
  {
    MethodHintsExact(m, mode);
  }

  /** The ATTRIBUTE hints are exactly one per Blank attribute, in enumeration order. */
  lemma {:induction false} AttributesHintsExact(attributes: seq<AttributeEntry>)
    ensures AttributesHints(attributes) == AttrHints(BlankAttributes(attributes))
  {
    if attributes != [] {
      var init, last := attributes[..|attributes| - 1], attributes[|attributes| - 1];
      AttributesHintsExact(init);
      assert attributes == init + [last];
      BlankAttributesAppend(init, last);
    }
  }

  lemma {:induction false} BlankAttributesAppend(attributes: seq<AttributeEntry>, a: AttributeEntry)
    ensures BlankAttributes(attributes + [a]) == BlankAttributes(attributes) + BlankAttributes([a])
  {
    if attributes != [] {
      assert (attributes + [a])[1..] == attributes[1..] + [a];
      BlankAttributesAppend(attributes[1..], a);
    }
  }

  lemma {:induction false} MethodsHintCountAppend(methods: seq<MethodEntry>, m: MethodEntry, mode: TypeSafety)
    ensures MethodsHintCount(methods + [m], mode) == MethodsHintCount(methods, mode) + MethodHintCount(m, mode)
  {
    if methods != [] {
      assert (methods + [m])[1..] == methods[1..] + [m];
      MethodsHintCountAppend(methods[1..], m, mode);
    }
  }

  lemma {:induction false} MethodsHintsCount(methods: seq<MethodEntry>, mode: TypeSafety)
    ensures |MethodsHints(methods, mode)| == MethodsHintCount(methods, mode)
  {
    if methods != [] {
      var init, last := methods[..|methods| - 1], methods[|methods| - 1];
      MethodsHintsCount(init, mode);
      MethodHintsExact(last, mode);
      assert methods == init + [last];
      MethodsHintCountAppend(init, last, mode);
    }
  }

  /** The total number of hints is the number of Blank attributes plus the per-method counts. */
  lemma HintCount(cls: ClassDescription, mode: TypeSafety)
    ensures |MissingHints(cls, mode)| == |BlankAttributes(cls.attributes)| + MethodsHintCount(cls.methods, mode)
  {
    AttributesHintsExact(cls.attributes);
    MethodsHintsCount(cls.methods, mode);
  }

  lemma {:induction false} MethodsHintsHaveNoAttributeHint(methods: seq<MethodEntry>, mode: TypeSafety)
    ensures forall h :: h in MethodsHints(methods, mode) ==> h.memberType != Attribute
  {
    if methods != [] {
      var last := methods[|methods| - 1];
      MethodsHintsHaveNoAttributeHint(methods[..|methods| - 1], mode);
      MethodHintsExact(last, mode);
    }
  }

  /** Every attribute hint precedes every method hint. */
  lemma AttributeHintsComeFirst(cls: ClassDescription, mode: TypeSafety)
    ensures var hints := MissingHints(cls, mode);
      forall i, j :: 0 <= i < j < |hints| && hints[j].memberType == Attribute ==> hints[i].memberType == Attribute
  {
    var hints := MissingHints(cls, mode);
    var methodHints := MethodsHints(cls.methods, mode);
    var na := |AttributesHints(cls.attributes)|;
    AttributesHintsExact(cls.attributes);
    MethodsHintsHaveNoAttributeHint(cls.methods, mode);
    assert forall k :: 0 <= k < na ==> hints[k].memberType == Attribute;
    assert forall k :: na <= k < |hints| ==> hints[k] == methodHints[k - na];
    assert forall k :: na <= k < |hints| ==> hints[k].memberType != Attribute;
  }

  /** In NO_RETURN_IS_NONE_RETURN mode no RETURN hint is ever produced. */
  lemma {:induction false} NoReturnModeHasNoReturnHints(methods: seq<MethodEntry>)
    ensures forall h :: h in MethodsHints(methods, NoReturnIsNoneReturn) ==> h.memberType == Arg
  {
    if methods != [] {
      NoReturnModeHasNoReturnHints(methods[..|methods| - 1]);
      MethodHintsExact(methods[|methods| - 1], NoReturnIsNoneReturn);
    }
  }
}
