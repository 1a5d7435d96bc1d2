# pytest-fmu-filter: model description decoding and marker filters

This project models the core of the pytest-fmu-filter plugin. The plugin reads
the `modelDescription.xml` of an FMU (Functional Mock-up Unit, FMI 2.0 or 3.0)
into a `ModelDescription` object. It then decides, for each `fmu_filter`
marker, whether that FMU passes the marker's keyword filters.

- `wrappers.dfy`: `Option` and `Result`, used for the paths where the source raises.
- `xml.dfy`: the parsed XML is an `Element` value holding a tag, its
  attributes in document order and its child elements. `Attr`/`Get`, `Find`,
  `FindAll` and `FindAllUnder` stand for ElementTree's `get`, `find("./t")`,
  `findall("./t")` and `findall("./p/t")`.
- `text.dfy`: `startswith`, ASCII `lower()`, `int()`, `str()` of integers, and
  the syntax `float()` accepts.
- `enums.dfy` and `records.dfy`: the enumerations and dataclasses of `md.py`,
  plus an `Error` datatype that names each exception the decoders raise.
- `common.dfy`: what both decoders share:
  - decoding a list element by element, where the first error aborts;
  - the tolerant causality, variability and initial decoding;
  - the interface types;
  - the DefaultExperiment element.
- `fmi2.dfy` and `fmi3.dfy`: the two version-specific decoders. Each
  list-building loop is a `method` proved equal to a specification function.
  Lemmas then state what that function promises.
- `model_description.dfy`: the `ModelDescription` class and its queries:
  - its constructor's version gate, as a factory method that returns an error
    instead of raising;
  - the `is_*`, `has_*` and `with_*` queries;
  - the version normalisation at the end of `read_modelDescription`.
- `plugin.dfy`: `_apply_filters` as a left-to-right fold over the marker's
  keyword arguments. The values are a subset of Python objects (booleans,
  None, integers, strings, lists of strings and callables), modelled with
  their truthiness, `is False` and `str()`.

Three behaviours of the code are modelled as written, not as documented:

- `with_inputs`, `with_outputs` and `with_parameters` guard on
  `self.has_input` and the like without calling them. A bound method is always
  truthy, so the guard never fires and each query behaves exactly like
  `with_variables`. The lemma `Md.WithInputsIgnoresCausality` shows a
  description whose only variable is local and still passes `with_inputs("x")`.
- `read_modelDescription` rejects a "1.x" version as unsupported during
  normalisation. So the constructor's own FMI 1.0 error is never reached by
  that route (`Md.ReadModelSpec`). It is still modelled in `Md.DecodeModel`,
  for direct construction.
- A `custom` key whose value is not callable falls through the chain of
  `elif` branches to the unknown-key error.

## Model

| member | source | states |
|---|---|---|
| Enums.DecodeCausality | src/pytest_fmu_filter/md.py:23-32 | `VariableCausality(text)` accepts exactly the seven causality texts, each giving the member that has that text; any other text is refused (None) |
| Enums.DecodeVariability | src/pytest_fmu_filter/md.py:35-42 | `VariableVariability(text)` accepts exactly the five variability texts, each giving its own member; any other text is refused |
| Enums.DecodeInitial | src/pytest_fmu_filter/md.py:45-50 | `VariableInitial(text)` accepts exactly the three initial texts, each giving its own member; any other text is refused |
| Enums.EnumRoundTrips | src/pytest_fmu_filter/md.py:23-50 | every member of the three enumerations is decoded back from its own value text |
| Common.DecodeAll | src/pytest_fmu_filter/md.py:343-392 | the append loop with escaping exceptions: it succeeds iff every element decodes, then holds one value per element in order; on failure it carries the error of the first element that fails |
| Common.CausalityOf | src/pytest_fmu_filter/md.py:354-358 | a missing `causality` reads as local; a present text not naming a causality gives None; a decoded causality's text is the attribute's text |
| Common.VariabilityOf | src/pytest_fmu_filter/md.py:361-365 | a missing `variability` reads as continuous; an unknown text gives None; a decoded value's text is the attribute's text |
| Common.InitialOf | src/pytest_fmu_filter/md.py:368-372 | `initial` has no default: None iff the attribute is absent or names no initial kind; otherwise the attribute is the decoded kind's text |
| Common.HasKind | src/pytest_fmu_filter/md.py:526-543 | `any(it.fmi_type == k ...)`: true iff some interface type in the list has kind k |
| Common.EntriesOrdered | src/pytest_fmu_filter/md.py:272-310 | checking kinds in increasing order yields a list in that order, each kind at most once and with its own non-empty identifier |
| Common.EntriesKinds | src/pytest_fmu_filter/md.py:272-310 | a kind is in the list iff it is checked and its declared identifier is non-empty |
| Common.InterfaceTypesAreEntries | src/pytest_fmu_filter/md.py:244-310 | the FMI 2.0 list checks ModelExchange then CoSimulation; the FMI 3.0 list adds ScheduledExecution last |
| Common.InterfaceTypesSpec | src/pytest_fmu_filter/md.py:244-310 | both lists are ordered ME, CS, SE with each kind at most once, carrying the first declaring child's `modelIdentifier`; FMI 2.0 has kind k iff k is not ScheduledExecution and its identifier is non-empty; FMI 3.0 has k iff its identifier is non-empty |
| Common.ParseFmi2InterfaceTypes | src/pytest_fmu_filter/md.py:244-270 | the list built by appending equals the FMI 2.0 interface-type list |
| Common.ParseFmi3InterfaceTypes | src/pytest_fmu_filter/md.py:272-310 | the list built by appending equals the FMI 3.0 interface-type list |
| Common.NumericAttr | src/pytest_fmu_filter/md.py:318-328 | an absent attribute stays None; a present one is kept iff it is a float literal, else the decode fails |
| Common.ParseDefaultExperiment | src/pytest_fmu_filter/md.py:312-336 | no DefaultExperiment child gives None; otherwise it succeeds iff each of the four attributes is absent or a float literal, and then holds exactly those four attributes; startTime, stopTime, tolerance and stepSize are converted in that order |
| Common.DefaultExperimentFirstError | src/pytest_fmu_filter/md.py:312-336 | a failure comes from a present DefaultExperiment and is `MalformedFloat` for the first of startTime, stopTime, tolerance, stepSize that is not a float literal, every earlier one being absent or well formed |
| Fmi2.FirstTypeChildSpec | src/pytest_fmu_filter/md.py:375-379 | the type name is None iff no Real/Integer/Boolean/String/Enumeration child exists; otherwise it is the first such tag in that order, lower-cased |
| Fmi2.TypeNameOf | src/pytest_fmu_filter/md.py:374-379 | the loop with `break` yields the first present type tag lower-cased, or None |
| Fmi2.ScalarVariableSpec | src/pytest_fmu_filter/md.py:344-390 | a ScalarVariable is refused iff `name` or `valueReference` is missing or the reference is not an integer (missing name reported first); otherwise every field comes from its attribute or type child |
| Fmi2.ParseScalarVariable | src/pytest_fmu_filter/md.py:344-390 | one loop iteration computes the specified decode of the element |
| Fmi2.ParseFmi2Variables | src/pytest_fmu_filter/md.py:338-394 | the loop returns the element-by-element decode of `findall("./ModelVariables/ScalarVariable")` |
| Fmi2.Fmi2VariablesSpec | src/pytest_fmu_filter/md.py:343-394 | the elements are exactly the ScalarVariable children of every ModelVariables child; one lacking `name` or `valueReference` aborts the whole list; on success there is one variable per element, in document order |
| Fmi2.ParseFmi2Model | src/pytest_fmu_filter/md.py:186-213 | the FMI 2.0 model: root attributes with "" defaults, interface types, then the default experiment, then the variables, where the first error aborts |
| Fmi2.Fmi2ModelSpec | src/pytest_fmu_filter/md.py:186-213 | the FMI 2.0 decode succeeds iff the default experiment and the variables both decode; an experiment error is reported before a variable error; a success carries the five root attributes ("" when absent), the interface types, the experiment and the variables |
| Fmi3.Put | src/pytest_fmu_filter/md.py:488-495 | `d[k] = v` on an insertion-ordered dict: k then maps to v; a new key goes last; an existing key keeps its place: the result is the dict with that one entry's value replaced, so the length and every other key's value stay |
| Fmi3.UnconsumedLookup | src/pytest_fmu_filter/md.py:477-491 | after filtering, a consumed name is absent and any other name has its attribute value |
| Fmi3.LeftoverIsUnconsumed | src/pytest_fmu_filter/md.py:475-491 | with distinct attribute names, the dict the loop builds is the unconsumed attributes in document order |
| Fmi3.TypeAttributesSpec | src/pytest_fmu_filter/md.py:475-495 | `type_attributes` is the attributes outside the ten consumed names, in order, then `start` from a Start child's `value` (default "") only when no `start` attribute exists |
| Fmi3.CollectTypeAttributes | src/pytest_fmu_filter/md.py:475-495 | the attribute loop and the Start update compute `type_attributes` |
| Fmi3.CollectDimensions | src/pytest_fmu_filter/md.py:498-503 | one Dimension per Dimension child, in order, holding that child's `start` and `valueReference` |
| Fmi3.Flag | src/pytest_fmu_filter/md.py:463-469 | a flag is None iff its attribute is absent, and true iff the text is "true" in any letter case |
| Text.LowerIsTrue | src/pytest_fmu_filter/md.py:463-469 | `s.lower() == "true"` holds exactly for the four-letter spellings of "true" in any case |
| Fmi3.Fmi3VariableSpec | src/pytest_fmu_filter/md.py:426-522 | a typed variable is refused iff `name` or `valueReference` is missing or not an integer (missing name reported first, then the missing reference with the name); otherwise its type name is the lower-cased tag, its description, enumerations, two flags, `previous` and `declaredType` come from its attributes, and its dimensions and `type_attributes` from its children and remaining attributes |
| Fmi3.ParseFmi3Variable | src/pytest_fmu_filter/md.py:426-522 | one inner-loop iteration computes the specified decode of the element |
| Fmi3.TagGroups | src/pytest_fmu_filter/md.py:401-425 | one group per type tag, in the fixed order; group k is `findall` of tag k |
| Fmi3.ParseGroup | src/pytest_fmu_filter/md.py:425-522 | the inner loop returns the element-by-element decode of one group |
| Fmi3.ParseTagGroups | src/pytest_fmu_filter/md.py:424-522 | the outer loop returns the groups decoded one after another, where the first error aborts |
| Fmi3.ParseFmi3Variables | src/pytest_fmu_filter/md.py:396-524 | no ModelVariables gives the empty list; otherwise the result is the first ModelVariables element's variables, grouped by type tag |
| Fmi3.FlattenLength | src/pytest_fmu_filter/md.py:424-524 | a successful decode has exactly one variable per element of all groups |
| Fmi3.FlattenAt | src/pytest_fmu_filter/md.py:424-524 | element i of group k is decoded into position (size of the earlier groups) + i |
| Fmi3.FlattenFailure | src/pytest_fmu_filter/md.py:424-524 | the decode fails iff some element of some group fails to decode |
| Fmi3.FlattenIsDecodeAll | src/pytest_fmu_filter/md.py:424-524 | decoding group after group is decoding the concatenated elements |
| Fmi3.TaggedVariablesRequired | src/pytest_fmu_filter/md.py:426-437 | any typed element without `name` or `valueReference` aborts the whole variable list |
| Fmi3.TaggedVariablesLayout | src/pytest_fmu_filter/md.py:424-512 | on success the i-th element tagged `tags[k]` is the variable after all earlier groups plus i, and its type name is that tag lower-cased |
| Fmi3.TaggedVariablesCount | src/pytest_fmu_filter/md.py:424-524 | on success the variable count is the number of typed elements |
| Fmi3.ParseFmi3Model | src/pytest_fmu_filter/md.py:215-242 | the FMI 3.0 model: root attributes with `instantiationToken`, interface types, then the default experiment, then the variables |
| Fmi3.Fmi3ModelSpec | src/pytest_fmu_filter/md.py:215-242 | the FMI 3.0 decode succeeds iff the default experiment and the variables both decode; an experiment error is reported before a variable error; a success carries the five root attributes with `instantiationToken` ("" when absent), the interface types, the experiment and the variables |
| Md.DecodeModel | src/pytest_fmu_filter/md.py:168-184 | a "1." version is refused as FMI 1.0 first; success needs exactly "2.0" (an FMI 2.0 model) or "3.0" (an FMI 3.0 model); any other version is unsupported; "2.0" and "3.0" give exactly the FMI 2.0 and FMI 3.0 decodes |
| Md.ModelDescription.constructor | src/pytest_fmu_filter/md.py:167-180 | stores root and version, the version's namespace ("" when unknown) and the decoded model |
| Md.ModelDescription.Create | src/pytest_fmu_filter/md.py:159-184 | construction succeeds iff the decode does, reports the decode's error otherwise, and yields a fresh valid object on success |
| Md.VariablesFromElements | src/pytest_fmu_filter/md.py:338-524 | a valid description's variables are its variable elements, decoded one by one in reading order |
| Md.InterfaceQueries | src/pytest_fmu_filter/md.py:526-543 | `is_me` and `is_cs` hold iff the first declaring child has a non-empty `modelIdentifier`; `is_se` also needs FMI 3.0 |
| Md.CausalityQueries | src/pytest_fmu_filter/md.py:568-587 | `has_input`, `has_output` and `has_parameter` hold iff some variable element carries that causality text; all are false with no variables |
| Md.NameQuery | src/pytest_fmu_filter/md.py:545-547 | `name_matches` applies the search to the root's `modelName`, "" when that attribute is absent |
| Md.WithVariablesSpec | src/pytest_fmu_filter/md.py:549-566 | `with_variables` holds iff some variable element's `name` is among the given names |
| Md.BareNameIsList | src/pytest_fmu_filter/md.py:559-560 | a bare string argument is the one-element list holding it |
| Md.WithInputsIgnoresCausality | src/pytest_fmu_filter/md.py:589-622 | the `with_*` guards are vacuous: a single local variable "x" has no inputs, outputs or parameters, yet passes all three `with_*("x")` queries |
| Md.ArrayQuery | src/pytest_fmu_filter/md.py:624-632 | `has_array_variables` holds iff the description is FMI 3.0 and some variable element has a Dimension child |
| Md.NormalizeVersionSpec | src/pytest_fmu_filter/md.py:688-698 | normalisation succeeds iff the version starts with "2." or "3."; it then keeps the major digit, is idempotent and yields a version the constructor accepts; otherwise the error names the raw version |
| Md.ReadModelSpec | src/pytest_fmu_filter/md.py:688-701 | a missing `fmiVersion` is refused as unsupported ""; "1.x" is refused as unsupported before the FMI 1.0 check; a success has the major digit of the raw version and the matching model kind |
| Md.ReadsAsFmi2 | src/pytest_fmu_filter/md.py:688-701 | a root declaring `fmiVersion` "2.0" is read as "2.0" with its FMI 2.0 decode, or fails with that decode's error |
| Md.ExampleReads | src/pytest_fmu_filter/md.py:159-213 | a document with `fmiVersion` "2.0" and one ScalarVariable (name "x", value reference 0, causality input, a Real child) reads as FMI 2.0 with empty root attributes, no interface types, no experiment and the one variable: continuous, type "real", no initial |
| Md.ReadModelDescription | src/pytest_fmu_filter/md.py:688-701 | succeeds iff the specified read does, with its error or its version and model, as a fresh valid object |
| Plugin.ApplyFilters | src/pytest_fmu_filter/plugin.py:75-138 | no description never passes; no filters always pass; otherwise the result is the in-order check of all filters, so the pass, fail and raise properties of that check hold for `_apply_filters` |
| Plugin.CheckAllPasses | src/pytest_fmu_filter/plugin.py:79-138 | the filters pass iff every one of them passes |
| Plugin.CheckAllFails | src/pytest_fmu_filter/plugin.py:79-138 | the result is False iff some filter fails and every filter before it passes |
| Plugin.CheckAllRaises | src/pytest_fmu_filter/plugin.py:79-135 | an error escapes iff some filter raises it and every filter before it passes |
| Plugin.BooleanKeysSpec | src/pytest_fmu_filter/plugin.py:80-121 | the six boolean keys never raise: a truthy value demands the property, `False` demands its absence, and any other falsy value always passes |
| Plugin.NameMatchesKeySpec | src/pytest_fmu_filter/plugin.py:101-103 | `name_matches` passes iff the search finds the string pattern in the model name; a pattern that is not a string raises TypeError |
| Plugin.NameKeysSpec | src/pytest_fmu_filter/plugin.py:95-127 | all four `with_*` keys behave as `with_variables` on a string or list; any other value raises TypeError, unless there are no variables, when the filter fails |
| Plugin.UnknownKeySpec | src/pytest_fmu_filter/plugin.py:104-135 | the unknown-key error arises exactly for a key outside the fourteen, or `custom` with a value that is not callable |
| Plugin.MajorVersionSpec | src/pytest_fmu_filter/plugin.py:128-130 | on a "2.0" or "3.0" description the integer n passes `fmi_major_version` iff the version is "n.0" |
| Plugin.MajorVersionText | src/pytest_fmu_filter/plugin.py:128-130 | a string value passes iff it is a prefix of the version, so "" always passes |
| Plugin.VersionKeySpec | src/pytest_fmu_filter/plugin.py:131-133 | `fmi_version` passes only for a string equal to the version |
| Plugin.UnknownKeyOrder | src/pytest_fmu_filter/plugin.py:79-135 | `dummy=True` raises for every description, but an earlier failing `is_me=True` returns False before the unknown key is reached |

## Left out

- Opening the FMU: the path, the zip archive and the text of the XML are not modelled; `read_modelDescription` starts from the parsed root element.
- XML namespaces: the namespace is stored as the source does, and lookups use plain tags.
- Floating point: DefaultExperiment values stay text, checked against the syntax `float()` accepts. Surrounding whitespace, digit-group underscores and non-ASCII decimal digits, which `float()` accepts, are not accepted.
- Text.ParseInt: accepts an optional sign and ASCII digits only; it does not accept surrounding whitespace, underscores or non-ASCII digits as Python's `int()` does.
- Text.AsciiLower: lower-cases ASCII letters only. This is exact for the `== "true"` test and for the ASCII type tags.
- Regular expressions: `re.search` in `name_matches` is the parameter `search`. Compiled patterns and the error raised for a malformed pattern are not modelled.
- `custom`: only the callable's boolean result is modelled, not exceptions it raises or truthiness of non-boolean results.
- Plugin.PyValue: a marker value is a bool, None, an int, a str, a list of str or a callable. Other Python values are not expressible: a tuple, set or dict given to a `with_*` key (where `in` works), a list with non-string items, or a float for `fmi_major_version` (`str(2.0)` is "2.0", which passes the prefix test).
- Plugin.PyStrOf: `str()` of a list does not escape quotes inside the items; a callable's text is "<function>".
- Plugin.MajorVersionSpec: stated for descriptions whose version is "2.0" or "3.0" (every valid one); other versions are covered only by Plugin.MajorVersionText for string values.
- The pytest hooks and fixtures that collect markers, call `_apply_filters` and skip or parametrize tests.
- Exception message texts: the `Error` datatype names the kind of each failure only.
