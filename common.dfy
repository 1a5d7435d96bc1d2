/**
 * What the FMI 2.0 and FMI 3.0 decoders share: decoding a list element by
 * element with the first error aborting, the tolerant enumeration fields of a
 * variable, the interface-type children and the DefaultExperiment element.
 */
module Common {
  import opened Wrappers
  import opened Xml
  import opened Text
  import opened Enums
  import opened Records

  /**
   * Decode `xs` left to right, as a `for` loop that appends each decoded item
   * and lets the first exception escape.
   */
  function DecodeAll<A, T, E>(xs: seq<A>, f: A -> Result<T, E>): (r: Result<seq<T>, E>)
    ensures r.Success? <==> forall i :: 0 <= i < |xs| ==> f(xs[i]).Success?
    ensures r.Success? ==>
      |r.value| == |xs| && forall i :: 0 <= i < |xs| ==> r.value[i] == f(xs[i]).value
    ensures r.Failure? ==>
      exists i :: 0 <= i < |xs| && f(xs[i]).Failure? && f(xs[i]).error == r.error &&
        forall j :: 0 <= j < i ==> f(xs[j]).Success?
  {
    if xs == [] then Success([])
    else
      match DecodeAll(xs[..|xs| - 1], f)
      case Failure(e) => Failure(e)
      case Success(init) =>
        match f(xs[|xs| - 1])
        case Failure(e) => Failure(e)
        case Success(v) => Success(init + [v])
  }

  /** Once a prefix has failed, the whole list fails with the same error. */
  lemma {:induction false} DecodeAllPrefixFailure<A, T, E>(xs: seq<A>, n: nat, f: A -> Result<T, E>)
    requires n <= |xs|
    requires DecodeAll(xs[..n], f).Failure?
    ensures DecodeAll(xs, f) == DecodeAll(xs[..n], f)
    decreases |xs| - n
  {
    if n < |xs| {
      assert xs[..n + 1][..n] == xs[..n];
      DecodeAllPrefixFailure(xs, n + 1, f);
    } else {
      assert xs[..n] == xs;
    }
  }

  /** One loop iteration: a decoded element extends the prefix, a failed one ends the whole list. */
  lemma DecodeAllStep<A, T, E>(xs: seq<A>, i: nat, f: A -> Result<T, E>, acc: seq<T>)
    requires i < |xs|
    requires DecodeAll(xs[..i], f) == Success(acc)
    ensures f(xs[i]).Success? ==> DecodeAll(xs[..i + 1], f) == Success(acc + [f(xs[i]).value])
    ensures f(xs[i]).Failure? ==> DecodeAll(xs, f) == Failure(f(xs[i]).error)
  {
    assert xs[..i + 1][..i] == xs[..i];
    if f(xs[i]).Failure? {
      DecodeAllPrefixFailure(xs, i + 1, f);
    }
  }

  /** A one-element list decodes to the element's value, or fails with its error. */
  lemma DecodeAllSingleton<A, T, E>(x: A, f: A -> Result<T, E>)
    ensures f(x).Success? ==> DecodeAll([x], f) == Success([f(x).value])
    ensures f(x).Failure? ==> DecodeAll([x], f) == Failure(f(x).error)
  {
    var xs := [x];
    assert xs[..|xs| - 1] == [] && xs[|xs| - 1] == x;
    assert DecodeAll(xs[..|xs| - 1], f) == Success([]);
    if f(x).Success? {
      var r := DecodeAll(xs, f);
      assert r.Success? && |r.value| == 1 && r.value[0] == f(xs[0]).value;
      assert r.value == [f(x).value];
    }
  }

  /** Decoding two lists one after the other is decoding their concatenation. */
  lemma {:induction false} DecodeAllAppend<A, T, E>(xs: seq<A>, ys: seq<A>, f: A -> Result<T, E>)
    ensures DecodeAll(xs + ys, f) ==
      match DecodeAll(xs, f)
      case Failure(e) => Failure(e)
      case Success(a) =>
        match DecodeAll(ys, f)
        case Failure(e) => Failure(e)
        case Success(b) => Success(a + b)
    decreases |ys|
  {
    if ys == [] {
      assert xs + ys == xs;
      assert DecodeAll(ys, f) == Success([]);
      if DecodeAll(xs, f).Success? {
        assert DecodeAll(xs, f).value + [] == DecodeAll(xs, f).value;
      }
    } else {
      var init := ys[..|ys| - 1];
      assert (xs + ys)[..|xs + ys| - 1] == xs + init;
      assert (xs + ys)[|xs + ys| - 1] == ys[|ys| - 1];
      DecodeAllAppend(xs, init, f);
      if DecodeAll(xs, f).Success? && DecodeAll(init, f).Success? && f(ys[|ys| - 1]).Success? {
        var a := DecodeAll(xs, f).value;
        var b := DecodeAll(init, f).value;
        assert a + (b + [f(ys[|ys| - 1]).value]) == (a + b) + [f(ys[|ys| - 1]).value];
      }
    }
  }

  /** `var.get("causality", "local")` decoded tolerantly. */
  function CausalityOf(e: Element): (r: Option<Causality>)
    ensures Attr(e, "causality").None? ==> r == Some(Local)
    ensures Attr(e, "causality").Some? ==>
      (r.None? <==> forall c :: CausalityText(c) != Attr(e, "causality").value)
    ensures r.Some? ==> CausalityText(r.value) == Get(e, "causality", "local")
  {
    DecodeCausality(Get(e, "causality", "local"))
  }

  /** `var.get("variability", "continuous")` decoded tolerantly. */
  function VariabilityOf(e: Element): (r: Option<Variability>)
    ensures Attr(e, "variability").None? ==> r == Some(Continuous)
    ensures Attr(e, "variability").Some? ==>
      (r.None? <==> forall v :: VariabilityText(v) != Attr(e, "variability").value)
    ensures r.Some? ==> VariabilityText(r.value) == Get(e, "variability", "continuous")
  {
    DecodeVariability(Get(e, "variability", "continuous"))
  }

  /** `VariableInitial(s) if s else None` on `var.get("initial")`: no default. */
  function InitialOf(e: Element): (r: Option<Initial>)
    ensures r.None? <==> Attr(e, "initial").None? || forall i :: InitialText(i) != Attr(e, "initial").value
    ensures r.Some? ==> Attr(e, "initial") == Some(InitialText(r.value))
  {
    match Attr(e, "initial")
    case None => None
    case Some(s) => if s == "" then None else DecodeInitial(s)
  }

  /** The child element that declares an interface kind. */
  function KindTag(k: FmiType): string {
    match k
    case ModelExchange => "ModelExchange"
    case CoSimulation => "CoSimulation"
    case ScheduledExecution => "ScheduledExecution"
  }

  /** Position of a kind in the order the decoders check them. */
  function KindRank(k: FmiType): nat {
    match k
    case ModelExchange => 0
    case CoSimulation => 1
    case ScheduledExecution => 2
  }

  /** The `modelIdentifier` of the first child declaring `k`, "" when there is no such child. */
  function DeclaredId(root: Element, k: FmiType): string {
    match Find(root, KindTag(k))
    case None => ""
    case Some(x) => Get(x, "modelIdentifier", "")
  }

  /**
   * The interface types found by checking `kinds` in order, where `ids(k)` is
   * the identifier declared for `k`: a kind contributes one entry exactly
   * when its identifier is non-empty.
   */
  function Entries(ids: FmiType -> string, kinds: seq<FmiType>): seq<InterfaceType> {
    if kinds == [] then []
    else
      var k := kinds[|kinds| - 1];
      Entries(ids, kinds[..|kinds| - 1]) + (if ids(k) != "" then [InterfaceType(ids(k), k)] else [])
  }

  /** What one block of the decoders appends for `kind`. */
  function Entry(root: Element, kind: FmiType): seq<InterfaceType> {
    match Find(root, KindTag(kind))
    case None => []
    case Some(x) => if Get(x, "modelIdentifier", "") != "" then [InterfaceType(Get(x, "modelIdentifier", ""), kind)] else []
  }

  /** `_parse_fmi2_interface_types`: ModelExchange, then CoSimulation. */
  function Fmi2InterfaceTypes(root: Element): seq<InterfaceType> {
    Entry(root, ModelExchange) + Entry(root, CoSimulation)
  }

  /** `_parse_fmi3_interface_types`: ModelExchange, CoSimulation, then ScheduledExecution. */
  function Fmi3InterfaceTypes(root: Element): seq<InterfaceType> {
    Entry(root, ModelExchange) + Entry(root, CoSimulation) + Entry(root, ScheduledExecution)
  }

  /** `any(it.fmi_type == k for it in its)`. */
  function HasKind(its: seq<InterfaceType>, k: FmiType): (r: bool)
    ensures r <==> exists i :: 0 <= i < |its| && its[i].fmiType == k
  {
    if its == [] then false
    else its[0].fmiType == k || HasKind(its[1..], k)
  }

  /** Kinds strictly in the order ME, CS, SE (so each at most once), each with its declared, non-empty identifier. */
  predicate WellOrdered(its: seq<InterfaceType>, ids: FmiType -> string) {
    (forall i, j :: 0 <= i < j < |its| ==> KindRank(its[i].fmiType) < KindRank(its[j].fmiType)) &&
    (forall i :: 0 <= i < |its| ==> its[i].modelIdentifier == ids(its[i].fmiType) != "")
  }

  /** Every entry comes from one of `kinds`. */
  lemma {:induction false} EntriesFromKinds(ids: FmiType -> string, kinds: seq<FmiType>, i: nat)
    requires i < |Entries(ids, kinds)|
    ensures Entries(ids, kinds)[i].fmiType in kinds
    ensures Entries(ids, kinds)[i].modelIdentifier == ids(Entries(ids, kinds)[i].fmiType) != ""
    decreases |kinds|
  {
    var init := kinds[..|kinds| - 1];
    var prev := Entries(ids, init);
    if i < |prev| {
      EntriesFromKinds(ids, init, i);
      assert Entries(ids, kinds)[i] == prev[i];
    }
  }

  /** Checking kinds of increasing rank yields a well-ordered list. */
  lemma {:induction false} EntriesOrdered(ids: FmiType -> string, kinds: seq<FmiType>)
    requires forall i, j :: 0 <= i < j < |kinds| ==> KindRank(kinds[i]) < KindRank(kinds[j])
    ensures WellOrdered(Entries(ids, kinds), ids)
    decreases |kinds|
  {
    var its := Entries(ids, kinds);
    if kinds != [] {
      var init := kinds[..|kinds| - 1];
      var last := kinds[|kinds| - 1];
      var prev := Entries(ids, init);
      EntriesOrdered(ids, init);
      forall i, j | 0 <= i < j < |its| ensures KindRank(its[i].fmiType) < KindRank(its[j].fmiType) {
        if j < |prev| {
          assert its[i] == prev[i] && its[j] == prev[j];
        } else {
          assert its[i] == prev[i];
          EntriesFromKinds(ids, init, i);
          var m :| 0 <= m < |init| && init[m] == prev[i].fmiType;
        }
      }
    }
    forall i | 0 <= i < |its| ensures its[i].modelIdentifier == ids(its[i].fmiType) != "" {
      EntriesFromKinds(ids, kinds, i);
    }
  }

  /** A kind is present exactly when it is checked and its identifier is non-empty. */
  lemma {:induction false} EntriesKinds(ids: FmiType -> string, kinds: seq<FmiType>, k: FmiType)
    ensures HasKind(Entries(ids, kinds), k) <==> k in kinds && ids(k) != ""
    decreases |kinds|
  {
    var its := Entries(ids, kinds);
    if HasKind(its, k) {
      var i :| 0 <= i < |its| && its[i].fmiType == k;
      EntriesFromKinds(ids, kinds, i);
    }
    if kinds != [] && k in kinds && ids(k) != "" {
      var init := kinds[..|kinds| - 1];
      var prev := Entries(ids, init);
      if k == kinds[|kinds| - 1] {
        assert its[|prev|].fmiType == k;
      } else {
        var m :| 0 <= m < |kinds| && kinds[m] == k;
        assert init[m] == k;
        EntriesKinds(ids, init, k);
        var i :| 0 <= i < |prev| && prev[i].fmiType == k;
        assert its[i] == prev[i];
      }
    }
  }

  /** One step of the decoders: the entry for `kind` goes after those of the kinds checked before it. */
  lemma EntriesStep(root: Element, kinds: seq<FmiType>, kind: FmiType)
    ensures Entries(k => DeclaredId(root, k), kinds + [kind]) == Entries(k => DeclaredId(root, k), kinds) + Entry(root, kind)
  {
    assert (kinds + [kind])[..|kinds|] == kinds;
  }

  /** The two decoders are `Entries` over the kinds they check, in order. */
  lemma InterfaceTypesAreEntries(root: Element)
    ensures Fmi2InterfaceTypes(root) == Entries(k => DeclaredId(root, k), [ModelExchange, CoSimulation])
    ensures Fmi3InterfaceTypes(root) == Entries(k => DeclaredId(root, k), [ModelExchange, CoSimulation, ScheduledExecution])
  {
    EntriesStep(root, [], ModelExchange);
    EntriesStep(root, [ModelExchange], CoSimulation);
    EntriesStep(root, [ModelExchange, CoSimulation], ScheduledExecution);
    assert [ModelExchange] + [CoSimulation] == [ModelExchange, CoSimulation];
    assert [ModelExchange, CoSimulation] + [ScheduledExecution] == [ModelExchange, CoSimulation, ScheduledExecution];
  }

  /**
   * What the interface-type lists hold: kinds in the order ME, CS, SE, each at
   * most once, present exactly when its first declaring child has a non-empty
   * `modelIdentifier`; FMI 2.0 never yields ScheduledExecution.
   */
  lemma InterfaceTypesSpec(root: Element)
    ensures WellOrdered(Fmi2InterfaceTypes(root), k => DeclaredId(root, k))
    ensures WellOrdered(Fmi3InterfaceTypes(root), k => DeclaredId(root, k))
    ensures forall k :: HasKind(Fmi2InterfaceTypes(root), k) <==> k != ScheduledExecution && DeclaredId(root, k) != ""
    ensures forall k :: HasKind(Fmi3InterfaceTypes(root), k) <==> DeclaredId(root, k) != ""
  {
    InterfaceTypesAreEntries(root);
    var ids := k => DeclaredId(root, k);
    var two := [ModelExchange, CoSimulation];
    var three := [ModelExchange, CoSimulation, ScheduledExecution];
    EntriesOrdered(ids, two);
    EntriesOrdered(ids, three);
    forall k ensures HasKind(Entries(ids, two), k) <==> k != ScheduledExecution && ids(k) != "" {
      EntriesKinds(ids, two, k);
    }
    forall k ensures HasKind(Entries(ids, three), k) <==> ids(k) != "" {
      EntriesKinds(ids, three, k);
    }
  }

  method ParseFmi2InterfaceTypes(root: Element) returns (its: seq<InterfaceType>)
    ensures its == Fmi2InterfaceTypes(root)
  {
    its := [];
    var me := Find(root, "ModelExchange");
    if me.Some? {
      var id := Get(me.value, "modelIdentifier", "");
      if id != "" {
        its := its + [InterfaceType(id, ModelExchange)];
      }
    }
    var cs := Find(root, "CoSimulation");
    if cs.Some? {
      var id := Get(cs.value, "modelIdentifier", "");
      if id != "" {
        its := its + [InterfaceType(id, CoSimulation)];
      }
    }
  }

  method ParseFmi3InterfaceTypes(root: Element) returns (its: seq<InterfaceType>)
    ensures its == Fmi3InterfaceTypes(root)
  {
    its := [];
    var me := Find(root, "ModelExchange");
    if me.Some? {
      var id := Get(me.value, "modelIdentifier", "");
      if id != "" {
        its := its + [InterfaceType(id, ModelExchange)];
      }
    }
    var cs := Find(root, "CoSimulation");
    if cs.Some? {
      var id := Get(cs.value, "modelIdentifier", "");
      if id != "" {
        its := its + [InterfaceType(id, CoSimulation)];
      }
    }
    var se := Find(root, "ScheduledExecution");
    if se.Some? {
      var id := Get(se.value, "modelIdentifier", "");
      if id != "" {
        its := its + [InterfaceType(id, ScheduledExecution)];
      }
    }
  }

  /** A float attribute of DefaultExperiment: absent stays None, present must be a float literal. */
  function NumericAttr(e: Element, k: string): (r: Result<Option<string>, Error>)
    ensures r.Success? ==> r.value == Attr(e, k)
    ensures r.Failure? <==> Attr(e, k).Some? && !IsFloatLiteral(Attr(e, k).value)
  {
    match Attr(e, k)
    case None => Success(None)
    case Some(t) => if IsFloatLiteral(t) then Success(Some(t)) else Failure(MalformedFloat(k, t))
  }

  /** `_parse_default_experiment`. */
  function DefaultExperimentOf(root: Element): Result<Option<DefaultExperiment>, Error> {
    match Find(root, "DefaultExperiment")
    case None => Success(None)
    case Some(d) =>
      var startTime :- NumericAttr(d, "startTime");
      var stopTime :- NumericAttr(d, "stopTime");
      var tolerance :- NumericAttr(d, "tolerance");
      var stepSize :- NumericAttr(d, "stepSize");
      Success(Some(DefaultExperiment(startTime, stopTime, tolerance, stepSize)))
  }

  /** The DefaultExperiment attributes in the order they are converted. */
  const ExperimentKeys: seq<string> := ["startTime", "stopTime", "tolerance", "stepSize"]

  /** Attribute `k` of `d` is absent or a float literal. */
  predicate NumericOk(d: Element, k: string) {
    Attr(d, k).None? || IsFloatLiteral(Attr(d, k).value)
  }

  /** Every attribute the default experiment reads is absent or a float literal. */
  predicate NumericAttrsValid(d: Element) {
    forall k :: k in ExperimentKeys ==> NumericOk(d, k)
  }

  /** The four attributes are valid together exactly when each one is. */
  lemma NumericAttrsValidKeys(d: Element)
    ensures NumericAttrsValid(d) <==>
      NumericOk(d, "startTime") && NumericOk(d, "stopTime") && NumericOk(d, "tolerance") && NumericOk(d, "stepSize")
  {
    assert ExperimentKeys == ["startTime", "stopTime", "tolerance", "stepSize"];
  }

  /**
   * A refused DefaultExperiment reports the first malformed attribute in
   * conversion order: every attribute before it is absent or a float literal.
   */
  lemma DefaultExperimentFirstError(root: Element)
    requires DefaultExperimentOf(root).Failure?
    ensures Find(root, "DefaultExperiment").Some?
    ensures var d := Find(root, "DefaultExperiment").value;
      exists i :: 0 <= i < |ExperimentKeys| && !NumericOk(d, ExperimentKeys[i]) &&
        DefaultExperimentOf(root).error == MalformedFloat(ExperimentKeys[i], Attr(d, ExperimentKeys[i]).value) &&
        forall j :: 0 <= j < i ==> NumericOk(d, ExperimentKeys[j])
  {
    var d := Find(root, "DefaultExperiment").value;
    var i := if !NumericOk(d, "startTime") then 0
      else if !NumericOk(d, "stopTime") then 1
      else if !NumericOk(d, "tolerance") then 2
      else 3;
    assert !NumericOk(d, ExperimentKeys[i]);
  }

  method ParseDefaultExperiment(root: Element) returns (r: Result<Option<DefaultExperiment>, Error>)
    ensures r == DefaultExperimentOf(root)
    ensures Find(root, "DefaultExperiment").None? ==> r == Success(None)
    ensures Find(root, "DefaultExperiment").Some? ==>
      var d := Find(root, "DefaultExperiment").value;
      (r.Success? <==> NumericAttrsValid(d)) &&
      (r.Success? ==> r.value == Some(DefaultExperiment(
        Attr(d, "startTime"), Attr(d, "stopTime"), Attr(d, "tolerance"), Attr(d, "stepSize"))))
  {
    var found := Find(root, "DefaultExperiment");
    if found.None? {
      return Success(None);
    }
    var d := found.value;
    NumericAttrsValidKeys(d);
    var startTime := NumericAttr(d, "startTime");
    if startTime.Failure? {
      return Failure(startTime.error);
    }
    var stopTime := NumericAttr(d, "stopTime");
    if stopTime.Failure? {
      return Failure(stopTime.error);
    }
    var tolerance := NumericAttr(d, "tolerance");
    if tolerance.Failure? {
      return Failure(tolerance.error);
    }
    var stepSize := NumericAttr(d, "stepSize");
    if stepSize.Failure? {
      return Failure(stepSize.error);
    }
    return Success(Some(DefaultExperiment(startTime.value, stopTime.value, tolerance.value, stepSize.value)));
  }
}
