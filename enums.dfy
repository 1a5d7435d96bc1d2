/**
 * The closed vocabularies of a variable description (causality, variability,
 * initial) and of interface kinds, with the text each member stands for and
 * the tolerant decoding that maps any other text to None.
 */
module Enums {
  import opened Wrappers

  datatype Causality =
    | Parameter | CalculatedParameter | Input | Output | Local | Independent | StructuralParameter

  function CausalityText(c: Causality): string {
    match c
    case Parameter => "parameter"
    case CalculatedParameter => "calculatedParameter"
    case Input => "input"
    case Output => "output"
    case Local => "local"
    case Independent => "independent"
    case StructuralParameter => "structuralParameter"
  }

  /** `VariableCausality(s)`, with the ValueError for unknown text turned into None. */
  function DecodeCausality(s: string): (r: Option<Causality>)
    ensures r.Some? ==> CausalityText(r.value) == s
    ensures r.None? <==> forall c :: CausalityText(c) != s
  {
    if s == "parameter" then Some(Parameter)
    else if s == "calculatedParameter" then Some(CalculatedParameter)
    else if s == "input" then Some(Input)
    else if s == "output" then Some(Output)
    else if s == "local" then Some(Local)
    else if s == "independent" then Some(Independent)
    else if s == "structuralParameter" then Some(StructuralParameter)
    else None
  }

  datatype Variability = Constant | Fixed | Tunable | Discrete | Continuous

  function VariabilityText(v: Variability): string {
    match v
    case Constant => "constant"
    case Fixed => "fixed"
    case Tunable => "tunable"
    case Discrete => "discrete"
    case Continuous => "continuous"
  }

  /** `VariableVariability(s)`, with unknown text turned into None. */
  function DecodeVariability(s: string): (r: Option<Variability>)
    ensures r.Some? ==> VariabilityText(r.value) == s
    ensures r.None? <==> forall v :: VariabilityText(v) != s
  {
    if s == "constant" then Some(Constant)
    else if s == "fixed" then Some(Fixed)
    else if s == "tunable" then Some(Tunable)
    else if s == "discrete" then Some(Discrete)
    else if s == "continuous" then Some(Continuous)
    else None
  }

  datatype Initial = Exact | Approx | Calculated

  function InitialText(i: Initial): string {
    match i
    case Exact => "exact"
    case Approx => "approx"
    case Calculated => "calculated"
  }

  /** `VariableInitial(s)`, with unknown text turned into None. */
  function DecodeInitial(s: string): (r: Option<Initial>)
    ensures r.Some? ==> InitialText(r.value) == s
    ensures r.None? <==> forall i :: InitialText(i) != s
  {
    if s == "exact" then Some(Exact)
    else if s == "approx" then Some(Approx)
    else if s == "calculated" then Some(Calculated)
    else None
  }

  /** Every member is decoded from its own text: the three decoders invert the text functions. */
  lemma EnumRoundTrips(c: Causality, v: Variability, i: Initial)
    ensures DecodeCausality(CausalityText(c)) == Some(c)
    ensures DecodeVariability(VariabilityText(v)) == Some(v)
    ensures DecodeInitial(InitialText(i)) == Some(i)
  {
  }

  /** The interface kinds: model exchange, co-simulation and (FMI 3.0) scheduled execution. */
  datatype FmiType = ModelExchange | CoSimulation | ScheduledExecution
}
