/** The parameter bag handed to the solver and the task that pairs it with
    a problem file. */
module Parameters {
  import opened JsonValues

  /** The solver parameters a batch task can set. */
  datatype Parameter =
    | Eps
    | ResultsAggregator
    | TieResolver
    | AlphaWeights
    | AlphaValues
    | NumberOfAlphaValues

  /** The parameters added to a bag so far; adding a parameter again replaces its value. */
  type RorParameters = map<Parameter, Json>

  /** The four parameters every batch task sets. */
  const RequiredParameters: set<Parameter> := {Eps, ResultsAggregator, TieResolver, AlphaWeights}

  /** One unit of work: a problem file and the parameters to solve it with. */
  datatype ProgramParameters = ProgramParameters(rorParameters: RorParameters, filename: Json)

  /** Builds one task. The alpha arguments default to `null`, Python's `None`;
      each is added to the bag only when it is not `null`. */
  function ProgramParametersFromValues(
    filename: Json,
    eps: Json,
    aggregator: Json,
    tieResolver: Json,
    weights: Json,
    alphaValues: Json := JNull,
    alphaValuesNumber: Json := JNull
  ): (t: ProgramParameters)
    ensures t.filename == filename
    ensures t.rorParameters.Keys ==
      RequiredParameters
      + (if alphaValues != JNull then {AlphaValues} else {})
      + (if alphaValuesNumber != JNull then {NumberOfAlphaValues} else {})
    ensures t.rorParameters[Eps] == eps
    ensures t.rorParameters[ResultsAggregator] == aggregator
    ensures t.rorParameters[TieResolver] == tieResolver
    ensures t.rorParameters[AlphaWeights] == weights
    ensures AlphaValues in t.rorParameters ==> t.rorParameters[AlphaValues] == alphaValues
    ensures NumberOfAlphaValues in t.rorParameters ==> t.rorParameters[NumberOfAlphaValues] == alphaValuesNumber
  {
    var bag: RorParameters := map[];
    var bag := bag[Eps := eps];
    var bag := bag[ResultsAggregator := aggregator];
    var bag := bag[TieResolver := tieResolver];
    var bag := bag[AlphaWeights := weights];
    var bag := if alphaValues != JNull then bag[AlphaValues := alphaValues] else bag;
    var bag := if alphaValuesNumber != JNull then bag[NumberOfAlphaValues := alphaValuesNumber] else bag;
    ProgramParameters(bag, filename)
  }
}
