/**
 * The FMI 2.0 decoder: model attributes, ModelExchange/CoSimulation
 * interface types, the default experiment, and one variable per
 * ModelVariables/ScalarVariable element in document order.
 */
module Fmi2 {
  import opened Wrappers
  import opened Xml
  import opened Text
  import opened Enums
  import opened Records
  import opened Common

  /** The type elements a ScalarVariable may carry, in the order they are tried. */
  const TypeTags: seq<string> := ["Real", "Integer", "Boolean", "String", "Enumeration"]

  /** The lower-cased first of `tags` present as a child of `sv`. */
  function FirstTypeChild(sv: Element, tags: seq<string>): Option<string> {
    if tags == [] then None
    else if Find(sv, tags[0]).Some? then Some(AsciiLower(tags[0]))
    else FirstTypeChild(sv, tags[1..])
  }

  /** The type name is absent exactly when no tag is present, otherwise it is the first present tag lower-cased. */
  lemma {:induction false} FirstTypeChildSpec(sv: Element, tags: seq<string>)
    ensures FirstTypeChild(sv, tags).None? <==> forall k :: 0 <= k < |tags| ==> Find(sv, tags[k]).None?
    ensures FirstTypeChild(sv, tags).Some? ==>
      exists k :: 0 <= k < |tags| && Find(sv, tags[k]).Some? &&
        FirstTypeChild(sv, tags).value == AsciiLower(tags[k]) &&
        forall j :: 0 <= j < k ==> Find(sv, tags[j]).None?
  {
    if tags != [] && Find(sv, tags[0]).None? {
      FirstTypeChildSpec(sv, tags[1..]);
      assert forall k :: 1 <= k < |tags| ==> tags[1..][k - 1] == tags[k];
      if FirstTypeChild(sv, tags).Some? {
        var k :| 0 <= k < |tags[1..]| && Find(sv, tags[1..][k]).Some? &&
          FirstTypeChild(sv, tags).value == AsciiLower(tags[1..][k]) &&
          forall j :: 0 <= j < k ==> Find(sv, tags[1..][j]).None?;
        assert tags[k + 1] == tags[1..][k];
      }
    }
  }

  /** The `for type_elem in [...]: if var.find(...) is not None: ...; break` loop. */
  method TypeNameOf(sv: Element) returns (typeName: Option<string>)
    ensures typeName == FirstTypeChild(sv, TypeTags)
  {
    typeName := None;
    var i := 0;
    while i < |TypeTags|
      invariant 0 <= i <= |TypeTags|
      invariant FirstTypeChild(sv, TypeTags) == FirstTypeChild(sv, TypeTags[i..])
    {
      if Find(sv, TypeTags[i]).Some? {
        typeName := Some(AsciiLower(TypeTags[i]));
        break;
      }
      assert TypeTags[i..][1..] == TypeTags[i + 1..];
      i := i + 1;
    }
  }

  /** One ScalarVariable: `name` and an integer `valueReference` are required. */
  function DecodeScalarVariable(sv: Element): Result<Variable, Error> {
    match Attr(sv, "name")
    case None => Failure(MissingName)
    case Some(name) =>
      match Attr(sv, "valueReference")
      case None => Failure(MissingValueReference(name))
      case Some(text) =>
        match ParseInt(text)
        case None => Failure(MalformedInteger(text))
        case Some(vr) =>
          Success(Fmi2Variable(
            name, vr, Attr(sv, "description"), CausalityOf(sv), VariabilityOf(sv),
            FirstTypeChild(sv, TypeTags), InitialOf(sv)))
  }

  /**
   * A ScalarVariable is rejected exactly when `name` or `valueReference` is
   * missing or the reference is not an integer; otherwise every field comes
   * from its attribute or child.
   */
  lemma ScalarVariableSpec(sv: Element)
    ensures DecodeScalarVariable(sv).Failure? <==>
      Attr(sv, "name").None? || Attr(sv, "valueReference").None? ||
      ParseInt(Attr(sv, "valueReference").value).None?
    ensures Attr(sv, "name").None? ==> DecodeScalarVariable(sv) == Failure(MissingName)
    ensures Attr(sv, "name").Some? && Attr(sv, "valueReference").None? ==>
      DecodeScalarVariable(sv) == Failure(MissingValueReference(Attr(sv, "name").value))
    ensures DecodeScalarVariable(sv).Success? ==>
      var v := DecodeScalarVariable(sv).value;
      v.Fmi2Variable? && Attr(sv, "name") == Some(v.name) &&
      ParseInt(Attr(sv, "valueReference").value) == Some(v.valueReference) &&
      v.description == Attr(sv, "description") &&
      v.causality == CausalityOf(sv) && v.variability == VariabilityOf(sv) &&
      v.initial == InitialOf(sv) && v.typeName == FirstTypeChild(sv, TypeTags)
  {
  }

  /** `_parse_fmi2_variables`, one loop iteration. */
  method ParseScalarVariable(sv: Element) returns (r: Result<Variable, Error>)
    ensures r == DecodeScalarVariable(sv)
  {
    var name := Attr(sv, "name");
    if name.None? {
      return Failure(MissingName);
    }
    var text := Attr(sv, "valueReference");
    if text.None? {
      return Failure(MissingValueReference(name.value));
    }
    var vr := ParseInt(text.value);
    if vr.None? {
      return Failure(MalformedInteger(text.value));
    }
    var description := Attr(sv, "description");
    var causality := CausalityOf(sv);
    var variability := VariabilityOf(sv);
    var initial := InitialOf(sv);
    var typeName := TypeNameOf(sv);
    return Success(Fmi2Variable(name.value, vr.value, description, causality, variability, typeName, initial));
  }

  /** `root.findall("./ModelVariables/ScalarVariable")`. */
  function ScalarVariables(root: Element): seq<Element> {
    FindAllUnder(root, "ModelVariables", "ScalarVariable")
  }

  function Fmi2Variables(root: Element): Result<seq<Variable>, Error> {
    DecodeAll(ScalarVariables(root), DecodeScalarVariable)
  }

  /** `_parse_fmi2_variables`. */
  method ParseFmi2Variables(root: Element) returns (r: Result<seq<Variable>, Error>)
    ensures r == Fmi2Variables(root)
  {
    var svs := ScalarVariables(root);
    var variables: seq<Variable> := [];
    var i := 0;
    while i < |svs|
      invariant 0 <= i <= |svs|
      invariant DecodeAll(svs[..i], DecodeScalarVariable) == Success(variables)
    {
      var v := ParseScalarVariable(svs[i]);
      DecodeAllStep(svs, i, DecodeScalarVariable, variables);
      if v.Failure? {
        return Failure(v.error);
      }
      variables := variables + [v.value];
      i := i + 1;
    }
    assert svs[..i] == svs;
    return Success(variables);
  }

  /**
   * The variable list has one entry per ScalarVariable of every ModelVariables
   * child, in document order; a single element lacking `name` or
   * `valueReference` aborts the whole list instead of being skipped.
   */
  lemma Fmi2VariablesSpec(root: Element)
    ensures var svs := ScalarVariables(root);
      forall sv :: sv in svs <==>
        exists mv :: mv in FindAll(root, "ModelVariables") && sv in FindAll(mv, "ScalarVariable")
    ensures var svs := ScalarVariables(root);
      forall sv :: sv in svs && (Attr(sv, "name").None? || Attr(sv, "valueReference").None?) ==>
        Fmi2Variables(root).Failure?
    ensures var svs := ScalarVariables(root);
      Fmi2Variables(root).Success? ==>
        |Fmi2Variables(root).value| == |svs| &&
        forall i :: 0 <= i < |svs| ==> Fmi2Variables(root).value[i] == DecodeScalarVariable(svs[i]).value
  {
    var svs := ScalarVariables(root);
    forall sv | sv in svs && (Attr(sv, "name").None? || Attr(sv, "valueReference").None?)
      ensures Fmi2Variables(root).Failure?
    {
      var i :| 0 <= i < |svs| && svs[i] == sv;
      assert DecodeScalarVariable(svs[i]).Failure?;
    }
  }

  /** `_parse_fmi2_model`: the default experiment is checked before the variables. */
  function DecodeFmi2Model(root: Element): Result<ModelData, Error> {
    var experiment :- DefaultExperimentOf(root);
    var variables :- Fmi2Variables(root);
    Success(Fmi2Model(
      Get(root, "modelName", ""), Get(root, "guid", ""), Get(root, "description", ""),
      Get(root, "author", ""), Get(root, "version", ""),
      Fmi2InterfaceTypes(root), experiment, variables))
  }

  /**
   * An FMI 2.0 model is decoded iff its default experiment and its variables
   * are, a default-experiment error coming first; on success the root
   * attributes default to "" and the lists are the decoded ones.
   */
  lemma Fmi2ModelSpec(root: Element)
    ensures DecodeFmi2Model(root).Success? <==> DefaultExperimentOf(root).Success? && Fmi2Variables(root).Success?
    ensures DefaultExperimentOf(root).Failure? ==> DecodeFmi2Model(root) == Failure(DefaultExperimentOf(root).error)
    ensures DefaultExperimentOf(root).Success? && Fmi2Variables(root).Failure? ==>
      DecodeFmi2Model(root) == Failure(Fmi2Variables(root).error)
    ensures DecodeFmi2Model(root).Success? ==>
      var m := DecodeFmi2Model(root).value;
      m.Fmi2Model? && m.modelName == Get(root, "modelName", "") && m.guid == Get(root, "guid", "") &&
      m.description == Get(root, "description", "") && m.author == Get(root, "author", "") &&
      m.version == Get(root, "version", "") && m.interfaceTypes == Fmi2InterfaceTypes(root) &&
      m.defaultExperiment == DefaultExperimentOf(root).value && m.variables == Fmi2Variables(root).value
  {
  }

  method ParseFmi2Model(root: Element) returns (r: Result<ModelData, Error>)
    ensures r == DecodeFmi2Model(root)
  {
    var modelName := Get(root, "modelName", "");
    var guid := Get(root, "guid", "");
    var description := Get(root, "description", "");
    var author := Get(root, "author", "");
    var version := Get(root, "version", "");
    var interfaceTypes := ParseFmi2InterfaceTypes(root);
    var experiment := ParseDefaultExperiment(root);
    if experiment.Failure? {
      return Failure(experiment.error);
    }
    var variables := ParseFmi2Variables(root);
    if variables.Failure? {
      return Failure(variables.error);
    }
    return Success(Fmi2Model(modelName, guid, description, author, version, interfaceTypes, experiment.value, variables.value));
  }
}
