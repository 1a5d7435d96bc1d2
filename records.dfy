/**
 * The typed records a decode produces: variables of either FMI version,
 * array dimensions, interface types, the default experiment and the model
 * description itself, plus the kinds of error that abort a decode.
 */
module Records {
  import opened Wrappers
  import opened Enums

  /** One array axis: a literal size (`start`) or the value reference of the variable that holds it. */
  datatype Dimension = Dimension(start: Option<string>, valueReference: Option<string>)

  /**
   * A variable. The fields both versions share have the same names in both
   * constructors; `typeName` is the lower-cased type element.
   */
  datatype Variable =
    | Fmi2Variable(
        name: string,
        valueReference: int,
        description: Option<string>,
        causality: Option<Causality>,
        variability: Option<Variability>,
        typeName: Option<string>,
        initial: Option<Initial>)
    | Fmi3Variable(
        name: string,
        valueReference: int,
        description: Option<string>,
        causality: Option<Causality>,
        variability: Option<Variability>,
        typeName: Option<string>,
        initial: Option<Initial>,
        canHandleMultipleSetPerTimeInstant: Option<bool>,
        intermediateUpdate: Option<bool>,
        previous: Option<string>,
        declaredType: Option<string>,
        dimensions: seq<Dimension>,
        typeAttributes: seq<(string, string)>)

  datatype InterfaceType = InterfaceType(modelIdentifier: string, fmiType: FmiType)

  /**
   * The four numeric hints of a DefaultExperiment element, each kept as the
   * text of its attribute once that text has been checked to be a float literal.
   */
  datatype DefaultExperiment = DefaultExperiment(
    startTime: Option<string>,
    stopTime: Option<string>,
    tolerance: Option<string>,
    stepSize: Option<string>)

  /** The aggregate record; the version-specific identity token is `guid` or `instantiationToken`. */
  datatype ModelData =
    | Fmi2Model(
        modelName: string,
        guid: string,
        description: string,
        author: string,
        version: string,
        interfaceTypes: seq<InterfaceType>,
        defaultExperiment: Option<DefaultExperiment>,
        variables: seq<Variable>)
    | Fmi3Model(
        modelName: string,
        instantiationToken: string,
        description: string,
        author: string,
        version: string,
        interfaceTypes: seq<InterfaceType>,
        defaultExperiment: Option<DefaultExperiment>,
        variables: seq<Variable>)

  datatype Error =
    | UnsupportedVersion(version: string)   // fmiVersion neither 2.x nor 3.x, or not exactly "2.0"/"3.0"
    | Fmi1Unsupported                      // the constructor's explicit "1." rejection
    | MissingName                          // a variable element without `name`
    | MissingValueReference(name: string)  // a variable element without `valueReference`
    | MalformedInteger(text: string)       // `int()` refused the valueReference text
    | MalformedFloat(attribute: string, text: string)  // `float()` refused a DefaultExperiment attribute
    | UnknownFilterKey(key: string)        // `_apply_filters` met a key it does not know
    | TypeError(key: string)               // a filter value of a type the predicate cannot take
}
