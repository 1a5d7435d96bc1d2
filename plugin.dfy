/**
 * `_apply_filters`: the keyword arguments of an `fmu_filter` marker, checked
 * one after another against a ModelDescription. Values are Python objects, so
 * they are modelled with the truthiness, `is False` and `str()` the checks use.
 */
module Plugin {
  import opened Wrappers
  import opened Text
  import opened Enums
  import opened Records
  import opened Md

  /** The values a marker keyword can carry. A callable stands for a user predicate on the description. */
  datatype PyValue =
    | PyBool(b: bool)
    | PyNone
    | PyInt(i: int)
    | PyStr(s: string)
    | PyList(items: seq<string>)
    | PyCallable(call: ModelDescription -> bool)

  /** Python truthiness. */
  predicate Truthy(v: PyValue) {
    match v
    case PyBool(b) => b
    case PyNone => false
    case PyInt(i) => i != 0
    case PyStr(s) => s != ""
    case PyList(items) => items != []
    case PyCallable(_) => true
  }

  /** `v is False`: only the boolean singleton, not 0, "" or None. */
  predicate IsFalse(v: PyValue) {
    v.PyBool? && !v.b
  }

  /** `repr` of a list of strings, without escaping quotes inside the items. */
  function ListRepr(items: seq<string>): string {
    "[" + JoinQuoted(items) + "]"
  }

  function JoinQuoted(items: seq<string>): string {
    if items == [] then ""
    else if |items| == 1 then "'" + items[0] + "'"
    else "'" + items[0] + "', " + JoinQuoted(items[1..])
  }

  /** `str(v)`; a callable's text is reduced to its leading "<function". */
  function PyStrOf(v: PyValue): string {
    match v
    case PyBool(b) => if b then "True" else "False"
    case PyNone => "None"
    case PyInt(i) => IntToText(i)
    case PyStr(s) => s
    case PyList(items) => ListRepr(items)
    case PyCallable(_) => "<function>"
  }

  /** The argument a `with_*` query accepts: a string or a list of strings. */
  function NamesOf(v: PyValue): Option<NamesArg> {
    match v
    case PyStr(s) => Some(Name(s))
    case PyList(items) => Some(Names(items))
    case _ => None
  }

  /**
   * A boolean key: a truthy value demands the property, a value that `is
   * False` demands its absence, any other falsy value demands nothing.
   */
  predicate ThreeValued(value: PyValue, holds: bool) {
    if Truthy(value) then holds
    else if IsFalse(value) then !holds
    else true
  }

  /**
   * A `with_*` key. `var.name in value` raises TypeError for a value that is
   * not a container, but only once there is a variable to test.
   */
  function NamesCheck(md: ModelDescription, key: string, value: PyValue, holds: NamesArg -> bool): Result<bool, Error> {
    match NamesOf(value)
    case Some(names) => Success(holds(names))
    case None => if md.model.variables == [] then Success(false) else Failure(TypeError(key))
  }

  /** One iteration of the loop: does the description pass the filter `key=value`? */
  function CheckFilter(md: ModelDescription, key: string, value: PyValue, search: (string, string) -> bool): Result<bool, Error> {
    if key == "is_me" then Success(ThreeValued(value, md.IsMe()))
    else if key == "is_cs" then Success(ThreeValued(value, md.IsCs()))
    else if key == "is_se" then Success(ThreeValued(value, md.IsSe()))
    else if key == "with_inputs" then NamesCheck(md, key, value, names => md.WithInputs(names))
    else if key == "with_outputs" then NamesCheck(md, key, value, names => md.WithOutputs(names))
    else if key == "name_matches" then
      (if value.PyStr? then Success(md.NameMatches(value.s, search)) else Failure(TypeError(key)))
    else if key == "custom" && value.PyCallable? then Success(value.call(md))
    else if key == "has_input" then Success(ThreeValued(value, md.HasInput()))
    else if key == "has_output" then Success(ThreeValued(value, md.HasOutput()))
    else if key == "has_parameter" then Success(ThreeValued(value, md.HasParameter()))
    else if key == "with_variables" then NamesCheck(md, key, value, names => md.WithVariables(names))
    else if key == "with_parameters" then NamesCheck(md, key, value, names => md.WithParameters(names))
    else if key == "fmi_major_version" then Success(StartsWith(md.fmiVersion, PyStrOf(value)))
    else if key == "fmi_version" then Success(value.PyStr? && value.s == md.fmiVersion)
    else Failure(UnknownFilterKey(key))
  }

  /** The loop over the filters in order: the first failing filter returns False, the first error escapes. */
  function CheckAll(md: ModelDescription, filters: seq<(string, PyValue)>, search: (string, string) -> bool): Result<bool, Error>
    decreases |filters|
  {
    if filters == [] then Success(true)
    else
      match CheckFilter(md, filters[0].0, filters[0].1, search)
      case Failure(e) => Failure(e)
      case Success(passed) => if passed then CheckAll(md, filters[1..], search) else Success(false)
  }

  /** `_apply_filters`: no description never passes. */
  function ApplyFilters(md: ModelDescription?, filters: seq<(string, PyValue)>, search: (string, string) -> bool): (r: Result<bool, Error>)
    ensures md == null ==> r == Success(false)
    ensures md != null && filters == [] ==> r == Success(true)
    ensures md != null ==> r == CheckAll(md, filters, search)
  {
    if md == null then Success(false) else CheckAll(md, filters, search)
  }

  /** Filter `i` passes, and so does every filter before it. */
  predicate PassesUpTo(md: ModelDescription, filters: seq<(string, PyValue)>, search: (string, string) -> bool, i: nat)
    requires i <= |filters|
  {
    forall j :: 0 <= j < i ==> CheckFilter(md, filters[j].0, filters[j].1, search) == Success(true)
  }

  /** Passing the first i + 1 filters is passing the first one and then i of the rest. */
  lemma PassesUpToStep(md: ModelDescription, filters: seq<(string, PyValue)>, search: (string, string) -> bool, i: nat)
    requires filters != [] && i < |filters|
    ensures PassesUpTo(md, filters, search, i + 1) <==>
      CheckFilter(md, filters[0].0, filters[0].1, search) == Success(true) && PassesUpTo(md, filters[1..], search, i)
  {
    var rest := filters[1..];
    if PassesUpTo(md, filters, search, i + 1) {
      forall j | 0 <= j < i ensures CheckFilter(md, rest[j].0, rest[j].1, search) == Success(true) {
        assert rest[j] == filters[j + 1];
      }
    }
    if CheckFilter(md, filters[0].0, filters[0].1, search) == Success(true) && PassesUpTo(md, rest, search, i) {
      forall j | 0 <= j < i + 1 ensures CheckFilter(md, filters[j].0, filters[j].1, search) == Success(true) {
        if j > 0 {
          assert filters[j] == rest[j - 1];
        }
      }
    }
  }

  /** The filters pass exactly when every one of them passes. */
  lemma {:induction false} CheckAllPasses(md: ModelDescription, filters: seq<(string, PyValue)>, search: (string, string) -> bool)
    ensures CheckAll(md, filters, search) == Success(true) <==> PassesUpTo(md, filters, search, |filters|)
    decreases |filters|
  {
    if filters != [] {
      CheckAllPasses(md, filters[1..], search);
      PassesUpToStep(md, filters, search, |filters| - 1);
    }
  }

  /**
   * The filters fail exactly when some filter fails and every filter before
   * it passes: the first failure returns False whatever follows it.
   */
  lemma {:induction false} CheckAllFails(md: ModelDescription, filters: seq<(string, PyValue)>, search: (string, string) -> bool)
    ensures CheckAll(md, filters, search) == Success(false) <==>
      exists i :: 0 <= i < |filters| && PassesUpTo(md, filters, search, i) &&
        CheckFilter(md, filters[i].0, filters[i].1, search) == Success(false)
    decreases |filters|
  {
    if filters != [] {
      var rest := filters[1..];
      var first := CheckFilter(md, filters[0].0, filters[0].1, search);
      CheckAllFails(md, rest, search);
      if CheckAll(md, filters, search) == Success(false) {
        if first == Success(true) {
          var i :| 0 <= i < |rest| && PassesUpTo(md, rest, search, i) &&
            CheckFilter(md, rest[i].0, rest[i].1, search) == Success(false);
          PassesUpToStep(md, filters, search, i);
          assert rest[i] == filters[i + 1];
        } else {
          assert PassesUpTo(md, filters, search, 0);
        }
      }
      if exists i :: 0 <= i < |filters| && PassesUpTo(md, filters, search, i) &&
          CheckFilter(md, filters[i].0, filters[i].1, search) == Success(false) {
        var i :| 0 <= i < |filters| && PassesUpTo(md, filters, search, i) &&
          CheckFilter(md, filters[i].0, filters[i].1, search) == Success(false);
        if i > 0 {
          PassesUpToStep(md, filters, search, i - 1);
          assert rest[i - 1] == filters[i];
        }
      }
    }
  }

  /**
   * The filters raise `e` exactly when some filter raises it and every filter
   * before it passes: an unknown key after a failing filter is never reached.
   */
  lemma {:induction false} CheckAllRaises(md: ModelDescription, filters: seq<(string, PyValue)>, search: (string, string) -> bool, e: Error)
    ensures CheckAll(md, filters, search) == Failure(e) <==>
      exists i :: 0 <= i < |filters| && PassesUpTo(md, filters, search, i) &&
        CheckFilter(md, filters[i].0, filters[i].1, search) == Failure(e)
    decreases |filters|
  {
    if filters != [] {
      var rest := filters[1..];
      var first := CheckFilter(md, filters[0].0, filters[0].1, search);
      CheckAllRaises(md, rest, search, e);
      if CheckAll(md, filters, search) == Failure(e) {
        if first == Success(true) {
          var i :| 0 <= i < |rest| && PassesUpTo(md, rest, search, i) &&
            CheckFilter(md, rest[i].0, rest[i].1, search) == Failure(e);
          PassesUpToStep(md, filters, search, i);
          assert rest[i] == filters[i + 1];
        } else {
          assert PassesUpTo(md, filters, search, 0);
        }
      }
      if exists i :: 0 <= i < |filters| && PassesUpTo(md, filters, search, i) &&
          CheckFilter(md, filters[i].0, filters[i].1, search) == Failure(e) {
        var i :| 0 <= i < |filters| && PassesUpTo(md, filters, search, i) &&
          CheckFilter(md, filters[i].0, filters[i].1, search) == Failure(e);
        if i > 0 {
          PassesUpToStep(md, filters, search, i - 1);
          assert rest[i - 1] == filters[i];
        }
      }
    }
  }

  /** The six keys whose value is read as three-valued. */
  const BooleanKeys: set<string> := {"is_me", "is_cs", "is_se", "has_input", "has_output", "has_parameter"}

  /** The property a boolean key asks about. */
  predicate BooleanQuery(md: ModelDescription, key: string)
    requires key in BooleanKeys
  {
    if key == "is_me" then md.IsMe()
    else if key == "is_cs" then md.IsCs()
    else if key == "is_se" then md.IsSe()
    else if key == "has_input" then md.HasInput()
    else if key == "has_output" then md.HasOutput()
    else md.HasParameter()
  }

  /**
   * A boolean key never raises: a truthy value passes exactly when the
   * property holds, `False` exactly when it does not, and None, 0 or "" always.
   */
  lemma BooleanKeysSpec(md: ModelDescription, key: string, value: PyValue, search: (string, string) -> bool)
    requires key in BooleanKeys
    ensures CheckFilter(md, key, value, search).Success?
    ensures Truthy(value) ==> (CheckFilter(md, key, value, search).value <==> BooleanQuery(md, key))
    ensures IsFalse(value) ==> (CheckFilter(md, key, value, search).value <==> !BooleanQuery(md, key))
    ensures !Truthy(value) && !IsFalse(value) ==> CheckFilter(md, key, value, search).value
  {
  }

  /** The keys that take a name or a list of names. */
  const NameKeys: set<string> := {"with_inputs", "with_outputs", "with_variables", "with_parameters"}

  /**
   * All four `with_*` keys behave as `with_variables`: a string or list
   * passes exactly when some variable has one of the names; any other value
   * raises TypeError, unless there are no variables, when the filter fails.
   */
  lemma NameKeysSpec(md: ModelDescription, key: string, value: PyValue, search: (string, string) -> bool)
    requires key in NameKeys
    ensures NamesOf(value).Some? ==>
      CheckFilter(md, key, value, search) == Success(md.WithVariables(NamesOf(value).value))
    ensures NamesOf(value).None? && md.model.variables == [] ==> CheckFilter(md, key, value, search) == Success(false)
    ensures NamesOf(value).None? && md.model.variables != [] ==>
      CheckFilter(md, key, value, search) == Failure(TypeError(key))
  {
  }

  /**
   * `name_matches` passes exactly when the search finds the pattern in the
   * model name; a pattern that is not a string raises TypeError.
   */
  lemma NameMatchesKeySpec(md: ModelDescription, value: PyValue, search: (string, string) -> bool)
    ensures CheckFilter(md, "name_matches", value, search) ==
      if value.PyStr? then Success(md.NameMatches(value.s, search)) else Failure(TypeError("name_matches"))
  {
  }

  /** The keys `_apply_filters` knows. */
  const KnownKeys: set<string> := BooleanKeys + NameKeys + {"name_matches", "custom", "fmi_major_version", "fmi_version"}

  /**
   * Only an unknown key, or `custom` with a value that is not callable,
   * raises ValueError; the value is not looked at for an unknown key.
   */
  lemma UnknownKeySpec(md: ModelDescription, key: string, value: PyValue, search: (string, string) -> bool)
    ensures CheckFilter(md, key, value, search).Failure? && CheckFilter(md, key, value, search).error.UnknownFilterKey? <==>
      key !in KnownKeys || (key == "custom" && !value.PyCallable?)
    ensures key !in KnownKeys || (key == "custom" && !value.PyCallable?) ==>
      CheckFilter(md, key, value, search) == Failure(UnknownFilterKey(key))
  {
  }

  /** `str(n)` is a prefix of "2.0" or "3.0" exactly when it is the major digit. */
  lemma MajorPrefix(n: int, v: string)
    requires v == "2.0" || v == "3.0"
    ensures StartsWith(v, IntToText(n)) <==> (n == 2 && v == "2.0") || (n == 3 && v == "3.0")
  {
    var t := IntToText(n);
    IntRoundTrip(n);
    if StartsWith(v, t) {
      assert t == v[..1];
      assert ParseInt(t) == Some(if v == "2.0" then 2 else 3);
    }
    if n == 2 {
      assert t == "2";
    } else if n == 3 {
      assert t == "3";
    }
  }

  /**
   * `fmi_major_version` compares `str(value)` as a prefix: on a "2.0" or
   * "3.0" description (every valid one) the integer n passes exactly when the
   * version is "n.0".
   */
  lemma MajorVersionSpec(md: ModelDescription, n: int, search: (string, string) -> bool)
    requires md.fmiVersion == "2.0" || md.fmiVersion == "3.0"
    ensures CheckFilter(md, "fmi_major_version", PyInt(n), search) == Success(true) <==>
      (n == 2 && md.fmiVersion == "2.0") || (n == 3 && md.fmiVersion == "3.0")
  {
    MajorPrefix(n, md.fmiVersion);
  }

  /** Any string prefix of the version passes `fmi_major_version`, the empty string for every description. */
  lemma MajorVersionText(md: ModelDescription, s: string, search: (string, string) -> bool)
    ensures CheckFilter(md, "fmi_major_version", PyStr(s), search) == Success(StartsWith(md.fmiVersion, s))
    ensures CheckFilter(md, "fmi_major_version", PyStr(""), search) == Success(true)
  {
    assert md.fmiVersion[..0] == "";
  }

  /** `fmi_version` passes only for the same string, and no other value type. */
  lemma VersionKeySpec(md: ModelDescription, value: PyValue, search: (string, string) -> bool)
    ensures CheckFilter(md, "fmi_version", value, search) == Success(true) <==>
      value.PyStr? && value.s == md.fmiVersion
  {
  }

  /**
   * `dummy=True` raises for every description, but an earlier filter that
   * fails returns False before the unknown key is reached.
   */
  lemma UnknownKeyOrder(md: ModelDescription, search: (string, string) -> bool)
    ensures ApplyFilters(md, [("dummy", PyBool(true))], search) == Failure(UnknownFilterKey("dummy"))
    ensures !md.IsMe() ==>
      ApplyFilters(md, [("is_me", PyBool(true)), ("dummy", PyBool(true))], search) == Success(false)
    ensures md.IsMe() ==>
      ApplyFilters(md, [("is_me", PyBool(true)), ("dummy", PyBool(true))], search) == Failure(UnknownFilterKey("dummy"))
  {
    assert [("is_me", PyBool(true)), ("dummy", PyBool(true))][1..] == [("dummy", PyBool(true))];
  }
}
