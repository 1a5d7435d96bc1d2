/**
 * The ModelDescription object: the version gate of its constructor, the
 * decoded model it holds, the yes/no questions asked of it, and the version
 * normalisation that `read_modelDescription` applies to the root element.
 */
module Md {
  import opened Wrappers
  import opened Xml
  import opened Text
  import opened Enums
  import opened Records
  import opened Common
  import opened Fmi2
  import opened Fmi3

  /** `FMI_NAMESPACES.get(fmi_version, "")`: stored, never used in a lookup. */
  function NamespaceOf(fmiVersion: string): string {
    if fmiVersion == "2.0" then "http://www.modelica.org/XSD/modelDescription"
    else if fmiVersion == "3.0" then "http://www.fmi-standard.org/schemas/3.0"
    else ""
  }

  /**
   * What `__init__` decodes: a "1." version is refused first, then exactly
   * "2.0" and "3.0" select a decoder and anything else is unsupported.
   */
  function DecodeModel(root: Element, fmiVersion: string): (r: Result<ModelData, Error>)
    ensures StartsWith(fmiVersion, "1.") ==> r == Failure(Fmi1Unsupported)
    ensures r.Success? ==>
      (fmiVersion == "2.0" && r.value.Fmi2Model?) || (fmiVersion == "3.0" && r.value.Fmi3Model?)
    ensures fmiVersion != "2.0" && fmiVersion != "3.0" && !StartsWith(fmiVersion, "1.") ==>
      r == Failure(UnsupportedVersion(fmiVersion))
    ensures fmiVersion == "2.0" ==> r == DecodeFmi2Model(root)
    ensures fmiVersion == "3.0" ==> r == DecodeFmi3Model(root)
  {
    assert "2.0"[..2] == "2." && "3.0"[..2] == "3.";
    if StartsWith(fmiVersion, "1.") then Failure(Fmi1Unsupported)
    else if fmiVersion == "2.0" then DecodeFmi2Model(root)
    else if fmiVersion == "3.0" then DecodeFmi3Model(root)
    else Failure(UnsupportedVersion(fmiVersion))
  }

  /** The argument of the `with_*` queries: a bare string or a list of names. */
  datatype NamesArg = Name(name: string) | Names(names: seq<string>)

  /** `if isinstance(variables, str): variables = [variables]`. */
  function AsList(arg: NamesArg): seq<string> {
    match arg
    case Name(n) => [n]
    case Names(ns) => ns
  }

  class ModelDescription {
    const root: Element
    const fmiVersion: string
    const namespace: string
    const model: ModelData

    /** The fields are those `__init__` leaves behind when it does not raise. */
    ghost predicate Valid() {
      DecodeModel(root, fmiVersion) == Success(model) && namespace == NamespaceOf(fmiVersion)
    }

    /** The field assignments of `__init__`, for a model its decoder has produced. */
    constructor (root: Element, fmiVersion: string, model: ModelData)
      requires DecodeModel(root, fmiVersion) == Success(model)
      ensures this.root == root && this.fmiVersion == fmiVersion && this.model == model
      ensures namespace == NamespaceOf(fmiVersion)
      ensures Valid()
    {
      this.root := root;
      this.fmiVersion := fmiVersion;
      this.namespace := NamespaceOf(fmiVersion);
      this.model := model;
    }

    /** `ModelDescription(root, fmi_version)`: the version checks, the decoder, then the object. */
    static method Create(root: Element, fmiVersion: string) returns (r: Result<ModelDescription, Error>)
      ensures r.Success? <==> DecodeModel(root, fmiVersion).Success?
      ensures r.Failure? ==> r.error == DecodeModel(root, fmiVersion).error
      ensures r.Success? ==>
        fresh(r.value) && r.value.Valid() && r.value.root == root && r.value.fmiVersion == fmiVersion
    {
      if StartsWith(fmiVersion, "1.") {
        return Failure(Fmi1Unsupported);
      }
      var decoded: Result<ModelData, Error>;
      if fmiVersion == "2.0" {
        decoded := ParseFmi2Model(root);
      } else if fmiVersion == "3.0" {
        decoded := ParseFmi3Model(root);
      } else {
        return Failure(UnsupportedVersion(fmiVersion));
      }
      if decoded.Failure? {
        return Failure(decoded.error);
      }
      var md := new ModelDescription(root, fmiVersion, decoded.value);
      return Success(md);
    }

    /** `is_me`. */
    predicate IsMe() {
      HasKind(model.interfaceTypes, ModelExchange)
    }

    /** `is_cs`. */
    predicate IsCs() {
      HasKind(model.interfaceTypes, CoSimulation)
    }

    /** `is_se`. */
    predicate IsSe() {
      HasKind(model.interfaceTypes, ScheduledExecution)
    }

    /** `name_matches`: `search` stands for `re.search(pattern, name) is not None`. */
    predicate NameMatches(pattern: string, search: (string, string) -> bool) {
      search(pattern, model.modelName)
    }

    /** `with_variables`: some variable's name is among the given names. */
    predicate WithVariables(names: NamesArg) {
      exists i :: 0 <= i < |model.variables| && model.variables[i].name in AsList(names)
    }

    /** Some variable has causality `c` (`has_input`, `has_output`, `has_parameter`). */
    predicate HasCausality(c: Causality) {
      exists i :: 0 <= i < |model.variables| && model.variables[i].causality == Some(c)
    }

    predicate HasInput() {
      HasCausality(Input)
    }

    predicate HasOutput() {
      HasCausality(Output)
    }

    predicate HasParameter() {
      HasCausality(Parameter)
    }

    /**
     * `with_inputs`. Its guard `if not self.has_input` negates the bound
     * method object, which is always truthy, so the guard never returns and
     * the query is `with_variables`.
     */
    predicate WithInputs(inputs: NamesArg) {
      WithVariables(inputs)
    }

    /** `with_outputs`: the same vacuous guard, on `self.has_output`. */
    predicate WithOutputs(outputs: NamesArg) {
      WithVariables(outputs)
    }

    /** `with_parameters`: the same vacuous guard, on `self.has_parameter`. */
    predicate WithParameters(parameters: NamesArg) {
      WithVariables(parameters)
    }

    /** `has_array_variables`: only an FMI 3.0 description is searched for dimensions. */
    predicate HasArrayVariables() {
      fmiVersion == "3.0" &&
      exists i :: 0 <= i < |model.variables| && model.variables[i].Fmi3Variable? && |model.variables[i].dimensions| > 0
    }
  }

  /** The variable elements a decode reads, in the order it reads them. */
  function VariableElements(root: Element, fmiVersion: string): seq<Element> {
    if fmiVersion == "2.0" then ScalarVariables(root)
    else
      match Find(root, "ModelVariables")
      case None => []
      case Some(mv) => Concat(TagGroups(mv, Fmi3.TypeTags))
  }

  /** The per-element decoder of each version. */
  function VariableDecoder(fmiVersion: string): Element -> Result<Variable, Error> {
    if fmiVersion == "2.0" then DecodeScalarVariable else DecodeFmi3Variable
  }

  /** A valid description's variables are its variable elements, decoded one by one. */
  lemma VariablesFromElements(md: ModelDescription)
    requires md.Valid()
    ensures DecodeAll(VariableElements(md.root, md.fmiVersion), VariableDecoder(md.fmiVersion)) ==
      Success(md.model.variables)
  {
    if md.fmiVersion == "3.0" {
      var found := Find(md.root, "ModelVariables");
      if found.Some? {
        FlattenIsDecodeAll(TagGroups(found.value, Fmi3.TypeTags), DecodeFmi3Variable);
      }
    }
  }

  /** The fields the queries look at, as both decoders set them. */
  lemma DecodedFields(fmiVersion: string, e: Element)
    requires VariableDecoder(fmiVersion)(e).Success?
    ensures Attr(e, "name") == Some(VariableDecoder(fmiVersion)(e).value.name)
    ensures VariableDecoder(fmiVersion)(e).value.causality == CausalityOf(e)
    ensures VariableDecoder(fmiVersion)(e).value.Fmi3Variable? <==> fmiVersion != "2.0"
    ensures VariableDecoder(fmiVersion)(e).value.Fmi3Variable? ==>
      |VariableDecoder(fmiVersion)(e).value.dimensions| == |FindAll(e, "Dimension")|
  {
    if fmiVersion == "2.0" {
      ScalarVariableSpec(e);
    } else {
      Fmi3VariableSpec(e);
    }
  }

  /** A text names causality `c` exactly when the tolerant decode of it is `c`. */
  lemma CausalityOfIs(e: Element, c: Causality)
    ensures CausalityOf(e) == Some(c) <==> Get(e, "causality", "local") == CausalityText(c)
  {
    EnumRoundTrips(c, Continuous, Exact);
  }

  /** Which decoder a valid description's model came from, and the lists it holds. */
  lemma DecodedModelParts(md: ModelDescription)
    requires md.Valid()
    ensures md.fmiVersion == "2.0" || md.fmiVersion == "3.0"
    ensures md.fmiVersion == "2.0" ==> md.model.interfaceTypes == Fmi2InterfaceTypes(md.root)
    ensures md.fmiVersion == "3.0" ==> md.model.interfaceTypes == Fmi3InterfaceTypes(md.root)
  {
  }

  /**
   * The interface queries of a valid description: a kind is supported exactly
   * when its first declaring child has a non-empty `modelIdentifier`, and
   * ScheduledExecution is never reported for FMI 2.0.
   */
  lemma InterfaceQueries(md: ModelDescription)
    requires md.Valid()
    ensures md.IsMe() <==> DeclaredId(md.root, ModelExchange) != ""
    ensures md.IsCs() <==> DeclaredId(md.root, CoSimulation) != ""
    ensures md.IsSe() <==> md.fmiVersion == "3.0" && DeclaredId(md.root, ScheduledExecution) != ""
  {
    DecodedModelParts(md);
    KindQueries(md.model.interfaceTypes, md.root, md.fmiVersion);
  }

  /** The same statement about a list decoded from `root` for version `v`. */
  lemma KindQueries(its: seq<InterfaceType>, root: Element, v: string)
    requires v == "2.0" || v == "3.0"
    requires v == "2.0" ==> its == Fmi2InterfaceTypes(root)
    requires v == "3.0" ==> its == Fmi3InterfaceTypes(root)
    ensures HasKind(its, ModelExchange) <==> DeclaredId(root, ModelExchange) != ""
    ensures HasKind(its, CoSimulation) <==> DeclaredId(root, CoSimulation) != ""
    ensures HasKind(its, ScheduledExecution) <==> v == "3.0" && DeclaredId(root, ScheduledExecution) != ""
  {
    InterfaceTypesSpec(root);
  }

  /**
   * `has_input`, `has_output` and `has_parameter`, in terms of the elements:
   * some variable element carries that causality text, so all three are false
   * when there are no variables.
   */
  lemma CausalityQueries(md: ModelDescription, c: Causality)
    requires md.Valid()
    ensures md.HasCausality(c) <==>
      exists i :: 0 <= i < |VariableElements(md.root, md.fmiVersion)| &&
        Get(VariableElements(md.root, md.fmiVersion)[i], "causality", "local") == CausalityText(c)
    ensures md.model.variables == [] ==> !md.HasCausality(c)
  {
    var elems := VariableElements(md.root, md.fmiVersion);
    var f := VariableDecoder(md.fmiVersion);
    VariablesFromElements(md);
    if md.HasCausality(c) {
      var i :| 0 <= i < |md.model.variables| && md.model.variables[i].causality == Some(c);
      DecodedFields(md.fmiVersion, elems[i]);
      CausalityOfIs(elems[i], c);
    }
    if exists i :: 0 <= i < |elems| && Get(elems[i], "causality", "local") == CausalityText(c) {
      var i :| 0 <= i < |elems| && Get(elems[i], "causality", "local") == CausalityText(c);
      DecodedFields(md.fmiVersion, elems[i]);
      CausalityOfIs(elems[i], c);
      assert md.model.variables[i].causality == Some(c);
    }
  }

  /** Names found among decoded variables are the `name` attributes of the decoded elements. */
  lemma DecodedNames(xs: seq<Element>, f: Element -> Result<Variable, Error>, vs: seq<Variable>, names: seq<string>)
    requires DecodeAll(xs, f) == Success(vs)
    requires forall e :: f(e).Success? ==> Attr(e, "name") == Some(f(e).value.name)
    ensures (exists i :: 0 <= i < |vs| && vs[i].name in names) <==>
      exists i :: 0 <= i < |xs| && Attr(xs[i], "name").Some? && Attr(xs[i], "name").value in names
  {
    if exists i :: 0 <= i < |vs| && vs[i].name in names {
      var i :| 0 <= i < |vs| && vs[i].name in names;
      assert f(xs[i]).Success? && vs[i] == f(xs[i]).value;
      assert Attr(xs[i], "name") == Some(vs[i].name);
    }
    if exists i :: 0 <= i < |xs| && Attr(xs[i], "name").Some? && Attr(xs[i], "name").value in names {
      var i :| 0 <= i < |xs| && Attr(xs[i], "name").Some? && Attr(xs[i], "name").value in names;
      assert f(xs[i]).Success? && vs[i] == f(xs[i]).value;
      assert Attr(xs[i], "name") == Some(vs[i].name);
    }
  }

  /**
   * `with_variables` holds exactly when some variable element's `name` is
   * among the names; a bare string is the list holding it.
   */
  lemma WithVariablesSpec(md: ModelDescription, names: NamesArg)
    requires md.Valid()
    ensures md.WithVariables(names) <==>
      exists i :: 0 <= i < |VariableElements(md.root, md.fmiVersion)| &&
        Attr(VariableElements(md.root, md.fmiVersion)[i], "name").Some? &&
        Attr(VariableElements(md.root, md.fmiVersion)[i], "name").value in AsList(names)
  {
    var f := VariableDecoder(md.fmiVersion);
    VariablesFromElements(md);
    forall e | f(e).Success? ensures Attr(e, "name") == Some(f(e).value.name) {
      DecodedFields(md.fmiVersion, e);
    }
    DecodedNames(VariableElements(md.root, md.fmiVersion), f, md.model.variables, AsList(names));
  }

  /** A bare string argument is the one-element list holding it. */
  lemma BareNameIsList(md: ModelDescription, name: string)
    ensures md.WithVariables(Name(name)) <==> md.WithVariables(Names([name]))
  {
  }

  /** `name_matches` searches the root's `modelName`, "" when the attribute is absent. */
  lemma NameQuery(md: ModelDescription, pattern: string, search: (string, string) -> bool)
    requires md.Valid()
    ensures md.NameMatches(pattern, search) <==> search(pattern, Get(md.root, "modelName", ""))
  {
  }

  /**
   * `has_array_variables` holds exactly for an FMI 3.0 description with a
   * variable element that has a Dimension child.
   */
  lemma ArrayQuery(md: ModelDescription)
    requires md.Valid()
    ensures md.HasArrayVariables() <==>
      md.fmiVersion == "3.0" &&
      exists i :: 0 <= i < |VariableElements(md.root, md.fmiVersion)| &&
        FindAll(VariableElements(md.root, md.fmiVersion)[i], "Dimension") != []
  {
    var elems := VariableElements(md.root, md.fmiVersion);
    VariablesFromElements(md);
    if md.HasArrayVariables() {
      var i :| 0 <= i < |md.model.variables| && md.model.variables[i].Fmi3Variable? && |md.model.variables[i].dimensions| > 0;
      DecodedFields(md.fmiVersion, elems[i]);
    }
    if md.fmiVersion == "3.0" && exists i :: 0 <= i < |elems| && FindAll(elems[i], "Dimension") != [] {
      var i :| 0 <= i < |elems| && FindAll(elems[i], "Dimension") != [];
      DecodedFields(md.fmiVersion, elems[i]);
      assert md.model.variables[i].Fmi3Variable? && |md.model.variables[i].dimensions| > 0;
    }
  }

  /**
   * The `with_inputs` guard does not look at causality: a description whose
   * only variable is local still answers `with_inputs("x")` with true.
   */
  lemma WithInputsIgnoresCausality(md: ModelDescription)
    requires md.model == Fmi2Model("m", "g", "", "", "", [], None,
      [Fmi2Variable("x", 0, None, Some(Local), Some(Continuous), Some("real"), None)])
    ensures !md.HasInput() && !md.HasOutput() && !md.HasParameter()
    ensures md.WithInputs(Name("x")) && md.WithOutputs(Name("x")) && md.WithParameters(Name("x"))
  {
    assert md.model.variables[0].name in AsList(Name("x"));
  }

  /** The version tail of `read_modelDescription`: "2.x" becomes "2.0", "3.x" becomes "3.0". */
  function NormalizeVersion(v: string): Result<string, Error> {
    if StartsWith(v, "2.") then Success("2.0")
    else if StartsWith(v, "3.") then Success("3.0")
    else Failure(UnsupportedVersion(v))
  }

  /**
   * Normalisation keeps the major digit and is idempotent; it refuses exactly
   * the versions without a "2." or "3." prefix (among them "" and "1.x"), and
   * whatever it produces passes the constructor's gate.
   */
  lemma NormalizeVersionSpec(v: string)
    ensures NormalizeVersion(v).Success? <==> |v| >= 2 && v[1] == '.' && (v[0] == '2' || v[0] == '3')
    ensures NormalizeVersion(v).Success? ==> NormalizeVersion(v).value == [v[0]] + ".0"
    ensures NormalizeVersion(v).Failure? ==> NormalizeVersion(v).error == UnsupportedVersion(v)
    ensures NormalizeVersion(v).Success? ==>
      NormalizeVersion(NormalizeVersion(v).value) == NormalizeVersion(v)
    ensures NormalizeVersion(v).Success? ==>
      var n := NormalizeVersion(v).value;
      !StartsWith(n, "1.") && (n == "2.0" || n == "3.0")
  {
    if |v| >= 2 {
      assert v[..2] == [v[0], v[1]];
    }
  }

  /** The whole of `read_modelDescription` after the root has been read. */
  function ReadModel(root: Element): Result<(string, ModelData), Error> {
    var fmiVersion :- NormalizeVersion(Get(root, "fmiVersion", ""));
    var model :- DecodeModel(root, fmiVersion);
    Success((fmiVersion, model))
  }

  /**
   * A missing `fmiVersion` is read as "" and refused; "1.x" is refused by
   * normalisation as unsupported before the constructor's FMI 1.0 check
   * could see it; a success is a 2.0 or 3.0 description whose kind
   * matches the root's major version.
   */
  lemma ReadModelSpec(root: Element)
    ensures Attr(root, "fmiVersion").None? ==> ReadModel(root) == Failure(UnsupportedVersion(""))
    ensures StartsWith(Get(root, "fmiVersion", ""), "1.") ==>
      ReadModel(root) == Failure(UnsupportedVersion(Get(root, "fmiVersion", "")))
    ensures ReadModel(root).Success? ==>
      var (fmiVersion, model) := ReadModel(root).value;
      var raw := Get(root, "fmiVersion", "");
      |raw| >= 2 && fmiVersion == [raw[0]] + ".0" &&
      (fmiVersion == "2.0" <==> model.Fmi2Model?) && (fmiVersion == "3.0" <==> model.Fmi3Model?)
  {
    NormalizeVersionSpec(Get(root, "fmiVersion", ""));
  }

  /** A root whose `fmiVersion` is "2.0" is read exactly as its FMI 2.0 decode. */
  lemma ReadsAsFmi2(root: Element)
    requires Get(root, "fmiVersion", "") == "2.0"
    ensures DecodeFmi2Model(root).Success? ==> ReadModel(root) == Success(("2.0", DecodeFmi2Model(root).value))
    ensures DecodeFmi2Model(root).Failure? ==> ReadModel(root) == Failure(DecodeFmi2Model(root).error)
  {
    assert NormalizeVersion("2.0") == Success("2.0") by {
      assert "2.0"[..2] == "2.";
    }
  }

  /** An input ScalarVariable "x" with value reference 0 and a Real type child. */
  function ExampleVariable(): Element {
    Element("ScalarVariable", [("name", "x"), ("valueReference", "0"), ("causality", "input")], [
      Element("Real", [], [])])
  }

  /** A version 2.0 document whose only content is that variable. */
  function ExampleRoot(): Element {
    Element("fmiModelDescription", [("fmiVersion", "2.0")], [
      Element("ModelVariables", [], [ExampleVariable()])])
  }

  /** The example variable decodes to an input of type "real" with the default variability. */
  lemma ExampleVariableDecodes()
    ensures DecodeScalarVariable(ExampleVariable()) ==
      Success(Fmi2Variable("x", 0, None, Some(Input), Some(Continuous), Some("real"), None))
  {
    var sv := ExampleVariable();
    assert Attr(sv, "name") == Some("x");
    assert Attr(sv, "valueReference") == Some("0");
    assert Attr(sv, "description") == None;
    assert ParseInt("0") == Some(0);
    ExampleVariableFields();
  }

  /** The attributes and the type child of the example variable, decoded one by one. */
  lemma ExampleVariableFields()
    ensures CausalityOf(ExampleVariable()) == Some(Input)
    ensures VariabilityOf(ExampleVariable()) == Some(Continuous)
    ensures InitialOf(ExampleVariable()) == None
    ensures FirstTypeChild(ExampleVariable(), Fmi2.TypeTags) == Some("real")
  {
    var sv := ExampleVariable();
    assert Get(sv, "causality", "local") == "input";
    assert Attr(sv, "variability") == None;
    assert Attr(sv, "initial") == None;
    assert Find(sv, "Real").Some?;
    assert AsciiLower("Real") == "real";
  }

  /** The example document holds its one variable and nothing else that is decoded. */
  lemma ExampleParts()
    ensures Get(ExampleRoot(), "fmiVersion", "") == "2.0"
    ensures ScalarVariables(ExampleRoot()) == [ExampleVariable()]
    ensures DefaultExperimentOf(ExampleRoot()) == Success(None)
    ensures Fmi2InterfaceTypes(ExampleRoot()) == []
    ensures Get(ExampleRoot(), "modelName", "") == "" && Get(ExampleRoot(), "guid", "") == "" &&
      Get(ExampleRoot(), "description", "") == "" && Get(ExampleRoot(), "author", "") == "" &&
      Get(ExampleRoot(), "version", "") == ""
  {
    var root := ExampleRoot();
    assert FindAll(root, "ModelVariables") == [root.children[0]];
    assert FindAll(root.children[0], "ScalarVariable") == [ExampleVariable()];
  }

  /** The FMI 2.0 decode of the example: empty attributes and lists, and the one variable. */
  lemma ExampleModel()
    ensures DecodeFmi2Model(ExampleRoot()) == Success(Fmi2Model("", "", "", "", "", [], None,
      [Fmi2Variable("x", 0, None, Some(Input), Some(Continuous), Some("real"), None)]))
  {
    var v := Fmi2Variable("x", 0, None, Some(Input), Some(Continuous), Some("real"), None);
    ExampleParts();
    ExampleVariableDecodes();
    DecodeAllSingleton(ExampleVariable(), DecodeScalarVariable);
    assert Fmi2Variables(ExampleRoot()) == Success([v]);
    Fmi2ModelSpec(ExampleRoot());
  }

  /**
   * The example document is read as an FMI 2.0 description holding one input
   * variable "x" of type "real"; so a valid description exists.
   */
  lemma ExampleReads()
    ensures ReadModel(ExampleRoot()) == Success(("2.0", Fmi2Model("", "", "", "", "", [], None,
      [Fmi2Variable("x", 0, None, Some(Input), Some(Continuous), Some("real"), None)])))
  {
    ExampleModel();
    assert Get(ExampleRoot(), "fmiVersion", "") == "2.0" by {
      ExampleParts();
    }
    ReadsAsFmi2(ExampleRoot());
  }

  /** `read_modelDescription` from the root element on. */
  method ReadModelDescription(root: Element) returns (r: Result<ModelDescription, Error>)
    ensures r.Success? <==> ReadModel(root).Success?
    ensures r.Failure? ==> r.error == ReadModel(root).error
    ensures r.Success? ==>
      fresh(r.value) && r.value.Valid() && r.value.root == root &&
      (r.value.fmiVersion, r.value.model) == ReadModel(root).value
  {
    var raw := Get(root, "fmiVersion", "");
    var fmiVersion: string;
    if StartsWith(raw, "2.") {
      fmiVersion := "2.0";
    } else if StartsWith(raw, "3.") {
      fmiVersion := "3.0";
    } else {
      return Failure(UnsupportedVersion(raw));
    }
    r := ModelDescription.Create(root, fmiVersion);
  }
}
