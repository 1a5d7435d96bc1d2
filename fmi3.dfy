/**
 * The FMI 3.0 decoder: model attributes, ModelExchange/CoSimulation/
 * ScheduledExecution interface types, the default experiment, and the
 * variables of the first ModelVariables element, grouped by type element.
 */
module Fmi3 {
  import opened Wrappers
  import opened Xml
  import opened Text
  import opened Enums
  import opened Records
  import opened Common

  /** The type elements read under ModelVariables, in the order they are processed. */
  const TypeTags: seq<string> := [
    "Float32", "Float64", "Int8", "UInt8", "Int16", "UInt16", "Int32", "UInt32",
    "Int64", "UInt64", "Boolean", "String", "Binary", "Enumeration"]

  /** Attributes decoded into named fields and therefore left out of `typeAttributes`. */
  const Consumed: seq<string> := [
    "name", "valueReference", "description", "causality", "variability", "initial",
    "canHandleMultipleSetPerTimeInstant", "intermediateUpdate", "previous", "declaredType"]

  /** Looking a key up after appending one pair: an earlier pair with the key wins. */
  lemma {:induction false} LookupSnoc(xs: seq<(string, string)>, p: (string, string), k: string)
    ensures Lookup(xs + [p], k) ==
      if Lookup(xs, k).Some? then Lookup(xs, k) else if p.0 == k then Some(p.1) else None
  {
    if xs != [] {
      assert (xs + [p])[1..] == xs[1..] + [p];
      LookupSnoc(xs[1..], p, k);
    }
  }

  /** `d[k] = v` on an insertion-ordered dict: an existing key keeps its place, a new one goes last. */
  function Put(d: seq<(string, string)>, k: string, v: string): (r: seq<(string, string)>)
    ensures Lookup(r, k) == Some(v)
    ensures Lookup(d, k).None? ==> r == d + [(k, v)]
    ensures Lookup(d, k).Some? ==> |r| == |d| && forall j :: j != k ==> Lookup(r, j) == Lookup(d, j)
    ensures Lookup(d, k).Some? ==>
      exists i :: 0 <= i < |d| && d[i].0 == k && (forall j :: 0 <= j < i ==> d[j].0 != k) && r == d[i := (k, v)]
  {
    if d == [] then [(k, v)]
    else if d[0].0 == k then [(k, v)] + d[1..]
    else [d[0]] + Put(d[1..], k, v)
  }

  /** The pairs whose key is not consumed, in order. */
  function Unconsumed(attrs: seq<(string, string)>): seq<(string, string)> {
    if attrs == [] then []
    else
      var prev := Unconsumed(attrs[..|attrs| - 1]);
      var p := attrs[|attrs| - 1];
      if p.0 in Consumed then prev else prev + [p]
  }

  /** Filtering keeps every lookup of an unconsumed key and hides every consumed one. */
  lemma {:induction false} UnconsumedLookup(attrs: seq<(string, string)>, k: string)
    ensures Lookup(Unconsumed(attrs), k) == if k in Consumed then None else Lookup(attrs, k)
  {
    if attrs != [] {
      var init := attrs[..|attrs| - 1];
      var p := attrs[|attrs| - 1];
      assert attrs == init + [p];
      UnconsumedLookup(init, k);
      LookupSnoc(init, p, k);
      if p.0 !in Consumed {
        LookupSnoc(Unconsumed(init), p, k);
      }
    }
  }

  /** The dict the attribute loop builds: `type_attributes[k] = v` for every unconsumed attribute. */
  function Leftover(attrs: seq<(string, string)>): seq<(string, string)> {
    if attrs == [] then []
    else
      var prev := Leftover(attrs[..|attrs| - 1]);
      var p := attrs[|attrs| - 1];
      if p.0 in Consumed then prev else Put(prev, p.0, p.1)
  }

  /** With distinct attribute names no assignment overwrites: the dict is the filtered attribute list. */
  lemma {:induction false} LeftoverIsUnconsumed(attrs: seq<(string, string)>)
    requires DistinctKeys(attrs)
    ensures Leftover(attrs) == Unconsumed(attrs)
  {
    if attrs != [] {
      var init := attrs[..|attrs| - 1];
      var p := attrs[|attrs| - 1];
      assert DistinctKeys(init);
      LeftoverIsUnconsumed(init);
      if p.0 !in Consumed {
        LookupSpec(init, p.0);
        UnconsumedLookup(init, p.0);
      }
    }
  }

  /** `type_attributes`: the leftover attributes, plus `start` from a Start child when no `start` attribute was kept. */
  function TypeAttributes(e: Element): seq<(string, string)> {
    var kept := Leftover(e.attrs);
    match Find(e, "Start")
    case Some(s) => if Lookup(kept, "start").None? then Put(kept, "start", Get(s, "value", "")) else kept
    case None => kept
  }

  /** The injected `start` entry, if any: present when there is a Start child and no `start` attribute. */
  function InjectedStart(e: Element): seq<(string, string)> {
    if Attr(e, "start").None? && Find(e, "Start").Some? then
      [("start", Get(Find(e, "Start").value, "value", ""))]
    else []
  }

  /**
   * `typeAttributes` holds exactly the attributes outside the ten consumed
   * names, values verbatim and in document order, followed by `start` taken
   * from a Start child's `value` (default "") when no `start` attribute exists.
   */
  lemma TypeAttributesSpec(e: Element)
    requires DistinctKeys(e.attrs)
    ensures TypeAttributes(e) == Unconsumed(e.attrs) + InjectedStart(e)
    ensures forall k :: k != "start" ==>
      Lookup(TypeAttributes(e), k) == if k in Consumed then None else Attr(e, k)
    ensures Lookup(TypeAttributes(e), "start") ==
      if Attr(e, "start").Some? then Attr(e, "start")
      else if Find(e, "Start").Some? then Some(Get(Find(e, "Start").value, "value", ""))
      else None
  {
    LeftoverIsUnconsumed(e.attrs);
    var kept := Unconsumed(e.attrs);
    UnconsumedLookup(e.attrs, "start");
    assert "start" !in Consumed;
    forall k | k != "start"
      ensures Lookup(TypeAttributes(e), k) == if k in Consumed then None else Attr(e, k)
    {
      UnconsumedLookup(e.attrs, k);
      if InjectedStart(e) != [] {
        LookupSnoc(kept, InjectedStart(e)[0], k);
      }
    }
    if InjectedStart(e) != [] {
      LookupSnoc(kept, InjectedStart(e)[0], "start");
    }
  }

  /** The attribute loop and the Start-child update of `_parse_fmi3_variables`. */
  method CollectTypeAttributes(e: Element) returns (attributes: seq<(string, string)>)
    ensures attributes == TypeAttributes(e)
  {
    attributes := [];
    var i := 0;
    while i < |e.attrs|
      invariant 0 <= i <= |e.attrs|
      invariant attributes == Leftover(e.attrs[..i])
    {
      var attribute := e.attrs[i];
      if attribute.0 !in Consumed {
        attributes := Put(attributes, attribute.0, attribute.1);
      }
      assert e.attrs[..i + 1][..i] == e.attrs[..i];
      i := i + 1;
    }
    assert e.attrs[..i] == e.attrs;
    var start := Find(e, "Start");
    if start.Some? && Lookup(attributes, "start").None? {
      attributes := Put(attributes, "start", Get(start.value, "value", ""));
    }
  }

  function DimensionOf(d: Element): Dimension {
    Dimension(Attr(d, "start"), Attr(d, "valueReference"))
  }

  /** One Dimension per Dimension child, in axis (document) order. */
  function Dimensions(e: Element): seq<Dimension> {
    var ds := FindAll(e, "Dimension");
    seq(|ds|, i requires 0 <= i < |ds| => DimensionOf(ds[i]))
  }

  /** The dimension loop of `_parse_fmi3_variables`. */
  method CollectDimensions(e: Element) returns (dims: seq<Dimension>)
    ensures |dims| == |FindAll(e, "Dimension")|
    ensures forall i :: 0 <= i < |dims| ==>
      dims[i] == Dimension(Attr(FindAll(e, "Dimension")[i], "start"), Attr(FindAll(e, "Dimension")[i], "valueReference"))
    ensures dims == Dimensions(e)
  {
    var ds := FindAll(e, "Dimension");
    dims := [];
    var j := 0;
    while j < |ds|
      invariant 0 <= j <= |ds|
      invariant |dims| == j
      invariant forall i :: 0 <= i < j ==> dims[i] == DimensionOf(ds[i])
    {
      var start := Attr(ds[j], "start");
      var valueRef := Attr(ds[j], "valueReference");
      dims := dims + [Dimension(start, valueRef)];
      j := j + 1;
    }
  }

  /** A three-valued flag: None when absent, otherwise whether the lower-cased text is "true". */
  function Flag(e: Element, k: string): (r: Option<bool>)
    ensures r.None? <==> Attr(e, k).None?
    ensures r == Some(true) <==>
      Attr(e, k).Some? &&
      var s := Attr(e, k).value;
      |s| == 4 && (s[0] == 't' || s[0] == 'T') && (s[1] == 'r' || s[1] == 'R') &&
      (s[2] == 'u' || s[2] == 'U') && (s[3] == 'e' || s[3] == 'E')
  {
    match Attr(e, k)
    case None => None
    case Some(s) =>
      LowerIsTrue(s);
      Some(AsciiLower(s) == "true")
  }

  /**
   * One typed variable element. Its tag is the type element it was found
   * under, so its lower-cased tag is the type name.
   */
  function DecodeFmi3Variable(e: Element): Result<Variable, Error> {
    match Attr(e, "name")
    case None => Failure(MissingName)
    case Some(name) =>
      match Attr(e, "valueReference")
      case None => Failure(MissingValueReference(name))
      case Some(text) =>
        match ParseInt(text)
        case None => Failure(MalformedInteger(text))
        case Some(vr) =>
          Success(Fmi3Variable(
            name, vr, Attr(e, "description"), CausalityOf(e), VariabilityOf(e),
            Some(AsciiLower(e.tag)), InitialOf(e),
            Flag(e, "canHandleMultipleSetPerTimeInstant"), Flag(e, "intermediateUpdate"),
            Attr(e, "previous"), Attr(e, "declaredType"), Dimensions(e), TypeAttributes(e)))
  }

  /**
   * A typed variable is rejected exactly when `name` or `valueReference` is
   * missing or the reference is not an integer; otherwise every field comes
   * from its attribute or children.
   */
  lemma Fmi3VariableSpec(e: Element)
    ensures DecodeFmi3Variable(e).Failure? <==>
      Attr(e, "name").None? || Attr(e, "valueReference").None? ||
      ParseInt(Attr(e, "valueReference").value).None?
    ensures Attr(e, "name").None? ==> DecodeFmi3Variable(e) == Failure(MissingName)
    ensures Attr(e, "name").Some? && Attr(e, "valueReference").None? ==>
      DecodeFmi3Variable(e) == Failure(MissingValueReference(Attr(e, "name").value))
    ensures DecodeFmi3Variable(e).Success? ==>
      var v := DecodeFmi3Variable(e).value;
      v.Fmi3Variable? && Attr(e, "name") == Some(v.name) &&
      ParseInt(Attr(e, "valueReference").value) == Some(v.valueReference) &&
      v.description == Attr(e, "description") &&
      v.typeName == Some(AsciiLower(e.tag)) &&
      v.causality == CausalityOf(e) && v.variability == VariabilityOf(e) && v.initial == InitialOf(e) &&
      v.canHandleMultipleSetPerTimeInstant == Flag(e, "canHandleMultipleSetPerTimeInstant") &&
      v.intermediateUpdate == Flag(e, "intermediateUpdate") &&
      v.previous == Attr(e, "previous") && v.declaredType == Attr(e, "declaredType") &&
      v.dimensions == Dimensions(e) &&
      v.typeAttributes == TypeAttributes(e)
  {
  }

  /** `_parse_fmi3_variables`, the body of the inner loop. */
  method ParseFmi3Variable(e: Element) returns (r: Result<Variable, Error>)
    ensures r == DecodeFmi3Variable(e)
  {
    var name := Attr(e, "name");
    if name.None? {
      return Failure(MissingName);
    }
    var text := Attr(e, "valueReference");
    if text.None? {
      return Failure(MissingValueReference(name.value));
    }
    var vr := ParseInt(text.value);
    if vr.None? {
      return Failure(MalformedInteger(text.value));
    }
    var description := Attr(e, "description");
    var causality := CausalityOf(e);
    var variability := VariabilityOf(e);
    var initial := InitialOf(e);
    var canHandle := Flag(e, "canHandleMultipleSetPerTimeInstant");
    var intermediate := Flag(e, "intermediateUpdate");
    var previous := Attr(e, "previous");
    var declaredType := Attr(e, "declaredType");
    var attributes := CollectTypeAttributes(e);
    var dims := CollectDimensions(e);
    return Success(Fmi3Variable(
      name.value, vr.value, description, causality, variability, Some(AsciiLower(e.tag)), initial,
      canHandle, intermediate, previous, declaredType, dims, attributes));
  }

  /** The elements to decode, one group per tag in the order of `tags`. */
  function TagGroups(mv: Element, tags: seq<string>): (groups: seq<seq<Element>>)
    ensures |groups| == |tags|
    ensures forall k :: 0 <= k < |tags| ==> groups[k] == FindAll(mv, tags[k])
  {
    seq(|tags|, k requires 0 <= k < |tags| => FindAll(mv, tags[k]))
  }

  /** The decoded variables of all groups, group after group; the first error aborts. */
  function Flatten(groups: seq<seq<Element>>, decode: Element -> Result<Variable, Error>): Result<seq<Variable>, Error>
    decreases |groups|
  {
    if groups == [] then Success([])
    else
      var before :- Flatten(groups[..|groups| - 1], decode);
      var group :- DecodeAll(groups[|groups| - 1], decode);
      Success(before + group)
  }

  /** Only the first ModelVariables element is read; without one the list is empty. */
  function Fmi3Variables(root: Element): Result<seq<Variable>, Error> {
    match Find(root, "ModelVariables")
    case None => Success([])
    case Some(mv) => Flatten(TagGroups(mv, TypeTags), DecodeFmi3Variable)
  }

  /** Once a prefix of the groups has failed, all of them fail with the same error. */
  lemma {:induction false} FlattenPrefixFailure(groups: seq<seq<Element>>, n: nat, decode: Element -> Result<Variable, Error>)
    requires n <= |groups|
    requires Flatten(groups[..n], decode).Failure?
    ensures Flatten(groups, decode) == Flatten(groups[..n], decode)
    decreases |groups| - n
  {
    if n < |groups| {
      assert groups[..n + 1][..n] == groups[..n];
      FlattenPrefixFailure(groups, n + 1, decode);
    } else {
      assert groups[..n] == groups;
    }
  }

  /** One iteration of the outer loop: a decoded group extends the prefix, a failed one ends the list. */
  lemma FlattenStep(groups: seq<seq<Element>>, i: nat, decode: Element -> Result<Variable, Error>, acc: seq<Variable>)
    requires i < |groups|
    requires Flatten(groups[..i], decode) == Success(acc)
    ensures DecodeAll(groups[i], decode).Success? ==>
      Flatten(groups[..i + 1], decode) == Success(acc + DecodeAll(groups[i], decode).value)
    ensures DecodeAll(groups[i], decode).Failure? ==>
      Flatten(groups, decode) == Failure(DecodeAll(groups[i], decode).error)
  {
    assert groups[..i + 1][..i] == groups[..i];
    if DecodeAll(groups[i], decode).Failure? {
      FlattenPrefixFailure(groups, i + 1, decode);
    }
  }

  /** The inner loop of `_parse_fmi3_variables`: the elements of one type tag, in document order. */
  method ParseGroup(elems: seq<Element>) returns (r: Result<seq<Variable>, Error>)
    ensures r == DecodeAll(elems, DecodeFmi3Variable)
  {
    var variables: seq<Variable> := [];
    var j := 0;
    while j < |elems|
      invariant 0 <= j <= |elems|
      invariant DecodeAll(elems[..j], DecodeFmi3Variable) == Success(variables)
    {
      var v := ParseFmi3Variable(elems[j]);
      DecodeAllStep(elems, j, DecodeFmi3Variable, variables);
      if v.Failure? {
        return Failure(v.error);
      }
      variables := variables + [v.value];
      j := j + 1;
    }
    assert elems[..j] == elems;
    return Success(variables);
  }

  /** The outer loop of `_parse_fmi3_variables`: the groups for `tags`, one after another. */
  method ParseTagGroups(mv: Element, tags: seq<string>) returns (r: Result<seq<Variable>, Error>)
    ensures r == Flatten(TagGroups(mv, tags), DecodeFmi3Variable)
  {
    ghost var groups := TagGroups(mv, tags);
    var variables: seq<Variable> := [];
    var i := 0;
    while i < |tags|
      invariant 0 <= i <= |tags|
      invariant Flatten(groups[..i], DecodeFmi3Variable) == Success(variables)
    {
      var elems := FindAll(mv, tags[i]);
      assert elems == groups[i];
      var group := ParseGroup(elems);
      FlattenStep(groups, i, DecodeFmi3Variable, variables);
      if group.Failure? {
        return Failure(group.error);
      }
      variables := variables + group.value;
      i := i + 1;
    }
    assert groups[..i] == groups;
    return Success(variables);
  }

  /** `_parse_fmi3_variables`. */
  method ParseFmi3Variables(root: Element) returns (r: Result<seq<Variable>, Error>)
    ensures r == Fmi3Variables(root)
  {
    var found := Find(root, "ModelVariables");
    if found.None? {
      return Success([]);
    }
    r := ParseTagGroups(found.value, TypeTags);
  }

  /** Where group `k` starts: the total size of the groups before it. */
  function Offset(groups: seq<seq<Element>>, k: nat): nat
    requires k <= |groups|
  {
    if k == 0 then 0 else Offset(groups, k - 1) + |groups[k - 1]|
  }

  lemma {:induction false} OffsetPrefix(groups: seq<seq<Element>>, n: nat, k: nat)
    requires k <= n <= |groups|
    ensures Offset(groups[..n], k) == Offset(groups, k)
  {
    if k > 0 {
      OffsetPrefix(groups, n, k - 1);
      assert groups[..n][k - 1] == groups[k - 1];
    }
  }

  /** A successful decode has one variable per element. */
  lemma {:induction false} FlattenLength(groups: seq<seq<Element>>, decode: Element -> Result<Variable, Error>)
    requires Flatten(groups, decode).Success?
    ensures |Flatten(groups, decode).value| == Offset(groups, |groups|)
    decreases |groups|
  {
    if groups != [] {
      var n := |groups| - 1;
      FlattenLength(groups[..n], decode);
      OffsetPrefix(groups, n, n);
    }
  }

  /** Element `i` of group `k` decodes to the variable at position Offset(k) + i. */
  lemma {:induction false} FlattenAt(groups: seq<seq<Element>>, decode: Element -> Result<Variable, Error>, k: nat, i: nat)
    requires Flatten(groups, decode).Success?
    requires k < |groups| && i < |groups[k]|
    ensures Offset(groups, k) + i < |Flatten(groups, decode).value|
    ensures decode(groups[k][i]).Success?
    ensures Flatten(groups, decode).value[Offset(groups, k) + i] == decode(groups[k][i]).value
    decreases |groups|
  {
    var n := |groups| - 1;
    var init := groups[..n];
    var vs := Flatten(groups, decode).value;
    var before := Flatten(init, decode).value;
    var group := DecodeAll(groups[n], decode).value;
    assert vs == before + group;
    if k < n {
      assert init[k] == groups[k];
      FlattenAt(init, decode, k, i);
      OffsetPrefix(groups, n, k);
    } else {
      FlattenLength(init, decode);
      OffsetPrefix(groups, n, n);
    }
  }

  /** The decode fails exactly when some element of some group fails to decode. */
  lemma {:induction false} FlattenFailure(groups: seq<seq<Element>>, decode: Element -> Result<Variable, Error>)
    ensures Flatten(groups, decode).Failure? <==>
      exists k, i :: 0 <= k < |groups| && 0 <= i < |groups[k]| && decode(groups[k][i]).Failure?
    decreases |groups|
  {
    if groups != [] {
      var n := |groups| - 1;
      var init := groups[..n];
      FlattenFailure(init, decode);
      if Flatten(groups, decode).Failure? {
        if Flatten(init, decode).Failure? {
          var k, i :| 0 <= k < |init| && 0 <= i < |init[k]| && decode(init[k][i]).Failure?;
          assert groups[k] == init[k];
        } else {
          assert DecodeAll(groups[n], decode).Failure?;
          var i :| 0 <= i < |groups[n]| && decode(groups[n][i]).Failure?;
        }
      }
      if exists k, i :: 0 <= k < |groups| && 0 <= i < |groups[k]| && decode(groups[k][i]).Failure? {
        var k, i :| 0 <= k < |groups| && 0 <= i < |groups[k]| && decode(groups[k][i]).Failure?;
        if k < n {
          assert init[k] == groups[k];
          assert Flatten(init, decode).Failure?;
        } else {
          assert DecodeAll(groups[n], decode).Failure?;
        }
      }
    }
  }

  /** The elements of all groups, group after group. */
  function Concat(groups: seq<seq<Element>>): seq<Element> {
    if groups == [] then [] else Concat(groups[..|groups| - 1]) + groups[|groups| - 1]
  }

  /** Decoding group after group is decoding the concatenated elements. */
  lemma {:induction false} FlattenIsDecodeAll(groups: seq<seq<Element>>, decode: Element -> Result<Variable, Error>)
    ensures Flatten(groups, decode) == DecodeAll(Concat(groups), decode)
    decreases |groups|
  {
    if groups != [] {
      var init := groups[..|groups| - 1];
      FlattenIsDecodeAll(init, decode);
      DecodeAllAppend(Concat(init), groups[|groups| - 1], decode);
    }
  }

  /** A variable element without one of the two attributes every variable needs. */
  predicate LacksRequired(e: Element) {
    Attr(e, "name").None? || Attr(e, "valueReference").None?
  }

  /** Any typed element under `mv` without `name` or `valueReference` aborts the whole decode. */
  lemma TaggedVariablesRequired(mv: Element, tags: seq<string>, k: nat, i: nat)
    requires k < |tags| && i < |FindAll(mv, tags[k])|
    requires LacksRequired(FindAll(mv, tags[k])[i])
    ensures Flatten(TagGroups(mv, tags), DecodeFmi3Variable).Failure?
  {
    var groups := TagGroups(mv, tags);
    Fmi3VariableSpec(groups[k][i]);
    FlattenFailure(groups, DecodeFmi3Variable);
  }

  /**
   * On success the i-th element tagged `tags[k]` decodes to the variable at
   * Offset(k) + i, and that variable's type name is the lower-cased tag.
   */
  lemma TaggedVariablesLayout(mv: Element, tags: seq<string>, k: nat, i: nat)
    requires k < |tags| && i < |FindAll(mv, tags[k])|
    requires Flatten(TagGroups(mv, tags), DecodeFmi3Variable).Success?
    ensures Offset(TagGroups(mv, tags), k) + i < |Flatten(TagGroups(mv, tags), DecodeFmi3Variable).value|
    ensures DecodeFmi3Variable(FindAll(mv, tags[k])[i]).Success?
    ensures Flatten(TagGroups(mv, tags), DecodeFmi3Variable).value[Offset(TagGroups(mv, tags), k) + i]
      == DecodeFmi3Variable(FindAll(mv, tags[k])[i]).value
    ensures Flatten(TagGroups(mv, tags), DecodeFmi3Variable).value[Offset(TagGroups(mv, tags), k) + i].typeName
      == Some(AsciiLower(tags[k]))
  {
    var groups := TagGroups(mv, tags);
    var e := FindAll(mv, tags[k])[i];
    FlattenAt(groups, DecodeFmi3Variable, k, i);
    assert e in FindAll(mv, tags[k]);
    Fmi3VariableSpec(e);
  }

  /** A successful decode has exactly one variable per typed element. */
  lemma TaggedVariablesCount(mv: Element, tags: seq<string>)
    requires Flatten(TagGroups(mv, tags), DecodeFmi3Variable).Success?
    ensures |Flatten(TagGroups(mv, tags), DecodeFmi3Variable).value| == Offset(TagGroups(mv, tags), |tags|)
  {
    FlattenLength(TagGroups(mv, tags), DecodeFmi3Variable);
  }

  /** `_parse_fmi3_model`: the default experiment is checked before the variables. */
  function DecodeFmi3Model(root: Element): Result<ModelData, Error> {
    var experiment :- DefaultExperimentOf(root);
    var variables :- Fmi3Variables(root);
    Success(Fmi3Model(
      Get(root, "modelName", ""), Get(root, "instantiationToken", ""), Get(root, "description", ""),
      Get(root, "author", ""), Get(root, "version", ""),
      Fmi3InterfaceTypes(root), experiment, variables))
  }

  /**
   * An FMI 3.0 model is decoded iff its default experiment and its variables
   * are, a default-experiment error coming first; on success the root
   * attributes default to "" and the lists are the decoded ones.
   */
  lemma Fmi3ModelSpec(root: Element)
    ensures DecodeFmi3Model(root).Success? <==> DefaultExperimentOf(root).Success? && Fmi3Variables(root).Success?
    ensures DefaultExperimentOf(root).Failure? ==> DecodeFmi3Model(root) == Failure(DefaultExperimentOf(root).error)
    ensures DefaultExperimentOf(root).Success? && Fmi3Variables(root).Failure? ==>
      DecodeFmi3Model(root) == Failure(Fmi3Variables(root).error)
    ensures DecodeFmi3Model(root).Success? ==>
      var m := DecodeFmi3Model(root).value;
      m.Fmi3Model? && m.modelName == Get(root, "modelName", "") &&
      m.instantiationToken == Get(root, "instantiationToken", "") &&
      m.description == Get(root, "description", "") && m.author == Get(root, "author", "") &&
      m.version == Get(root, "version", "") && m.interfaceTypes == Fmi3InterfaceTypes(root) &&
      m.defaultExperiment == DefaultExperimentOf(root).value && m.variables == Fmi3Variables(root).value
  {
  }

  method ParseFmi3Model(root: Element) returns (r: Result<ModelData, Error>)
    ensures r == DecodeFmi3Model(root)
  {
    var modelName := Get(root, "modelName", "");
    var token := Get(root, "instantiationToken", "");
    var description := Get(root, "description", "");
    var author := Get(root, "author", "");
    var version := Get(root, "version", "");
    var interfaceTypes := ParseFmi3InterfaceTypes(root);
    var experiment := ParseDefaultExperiment(root);
    if experiment.Failure? {
      return Failure(experiment.error);
    }
    var variables := ParseFmi3Variables(root);
    if variables.Failure? {
      return Failure(variables.error);
    }
    return Success(Fmi3Model(modelName, token, description, author, version, interfaceTypes, experiment.value, variables.value));
  }
}
