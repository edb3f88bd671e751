/** What the batch runner's configuration expansion computes, stated as
    functions: validating and defaulting the decoded sweep description, then
    the conditional cartesian product over its dimensions, in the order
    file, eps, aggregator, tie resolver, weights, and then first the
    alpha-values-number branch and second the alpha-values branch. */
module SweepSpec {
  import opened Results
  import opened JsonValues
  import opened Parameters

  const ProblemFilesKey := "problem_files"
  const EpsValuesKey := "eps_values"
  const AggregatorsKey := "aggregators"
  const TieResolversKey := "tie_resolvers"
  const AlphaWeightsListsKey := "alpha_weights_lists"
  const AlphaValuesNumberKey := "alpha_values_number"
  const AlphaValuesListsKey := "alpha_values_lists"

  /** The keys whose value may be left out; each present one must be a list. */
  const OptionalKeys: set<string> :=
    {EpsValuesKey, AggregatorsKey, TieResolversKey, AlphaWeightsListsKey, AlphaValuesNumberKey, AlphaValuesListsKey}

  /** Aggregators that resolve ties themselves and take a number of alpha values. */
  const BordaCopelandAggregators: seq<Json> :=
    [JString("BordaResultAggregator"), JString("CopelandResultAggregator")]

  /** Aggregators that take an explicit list of alpha values. */
  const DefaultWeightedAggregators: seq<Json> :=
    [JString("DefaultResultAggregator"), JString("WeightedResultAggregator")]

  const NoResolver := JString("NoResolver")

  predicate BordaOrCopeland(aggregator: Json) {
    aggregator in BordaCopelandAggregators
  }

  predicate DefaultOrWeighted(aggregator: Json) {
    aggregator in DefaultWeightedAggregators
  }

  /** Why a sweep description is rejected before any task is built. */
  datatype ConfigError =
    | ProblemFilesNotList          // `problem_files` missing or not a list
    | NoProblemFiles               // `problem_files` is an empty list
    | DimensionNotList(key: string) // an optional dimension present but not a list

  /** The solver's default value for each optional dimension. */
  datatype Defaults = Defaults(
    eps: Json,
    aggregator: Json,
    tieResolver: Json,
    alphaWeights: Json,
    alphaValuesNumber: Json,
    alphaValues: Json)

  /** A validated, defaulted sweep: the candidate values of every dimension. */
  datatype Sweep = Sweep(
    files: seq<Json>,
    epsValues: seq<Json>,
    aggregators: seq<Json>,
    tieResolvers: seq<Json>,
    alphaWeights: seq<Json>,
    alphaValuesNumbers: seq<Json>,
    alphaValuesLists: seq<Json>)
  {
    /** Every loop of the expansion has at least one value to run over. */
    predicate NonEmpty() {
      && files != []
      && epsValues != []
      && aggregators != []
      && tieResolvers != []
      && alphaWeights != []
      && alphaValuesNumbers != []
      && alphaValuesLists != []
    }
  }

  /** The values of an optional dimension: the given list when it is present
      and not empty, a single default when it is absent or empty, and an
      error when it is present but not a list. */
  function Dimension(data: map<string, Json>, key: string, default: Json): (r: Result<seq<Json>, ConfigError>)
    ensures r.Ok? ==> |r.value| >= 1
    ensures key in data && !data[key].JArray? ==> r == Err(DimensionNotList(key))
    ensures key in data && data[key].JArray? && data[key].items != [] ==> r == Ok(data[key].items)
    ensures key !in data || data[key] == JArray([]) ==> r == Ok([default])
  {
    if key in data && !data[key].JArray? then
      Err(DimensionNotList(key))
    else
      var values: seq<Json> := if key in data then data[key].items else [];
      if |values| < 1 then assert values + [default] == [default]; Ok(values + [default]) else Ok(values)
  }

  /** Validates the decoded description and fills in the defaults. The
      required files are checked first, then the optional dimensions in the
      order eps, aggregators, tie resolvers, weights, numbers of alpha values,
      alpha values; the first failure is the one reported. */
  function ParseSweep(data: map<string, Json>, defaults: Defaults): (r: Result<Sweep, ConfigError>)
    ensures r.Ok? ==> r.value.NonEmpty()
    ensures r.Ok? ==> ProblemFilesKey in data && data[ProblemFilesKey] == JArray(r.value.files)
    ensures ProblemFilesKey !in data || !data[ProblemFilesKey].JArray? ==> r == Err(ProblemFilesNotList)
    ensures ProblemFilesKey in data && data[ProblemFilesKey] == JArray([]) ==> r == Err(NoProblemFiles)
  {
    if ProblemFilesKey !in data || !data[ProblemFilesKey].JArray? then
      Err(ProblemFilesNotList)
    else if |data[ProblemFilesKey].items| < 1 then
      Err(NoProblemFiles)
    else
      var epsValues :- Dimension(data, EpsValuesKey, defaults.eps);
      var aggregators :- Dimension(data, AggregatorsKey, defaults.aggregator);
      var tieResolvers :- Dimension(data, TieResolversKey, defaults.tieResolver);
      var alphaWeights :- Dimension(data, AlphaWeightsListsKey, defaults.alphaWeights);
      var alphaValuesNumbers :- Dimension(data, AlphaValuesNumberKey, defaults.alphaValuesNumber);
      var alphaValuesLists :- Dimension(data, AlphaValuesListsKey, defaults.alphaValues);
      Ok(Sweep(data[ProblemFilesKey].items, epsValues, aggregators, tieResolvers,
               alphaWeights, alphaValuesNumbers, alphaValuesLists))
  }

  /** Borda and Copeland aggregators resolve ties themselves: any tie
      resolver other than `NoResolver` is skipped for them. */
  predicate TieResolverPruned(aggregator: Json, tieResolver: Json) {
    BordaOrCopeland(aggregator) && tieResolver != NoResolver
  }

  /** The alpha setting of one task: which of the two optional fields it carries. */
  datatype Alpha = AlphaNumber(number: Json) | AlphaList(values: Json)

  /** The loop variables at the point where a task is emitted. */
  datatype Combination = Combination(
    file: Json,
    eps: Json,
    aggregator: Json,
    tieResolver: Json,
    weights: Json,
    alpha: Alpha)

  /** The task built for one combination. */
  function TaskOf(c: Combination): ProgramParameters {
    match c.alpha
    case AlphaNumber(n) =>
      ProgramParametersFromValues(c.file, c.eps, c.aggregator, c.tieResolver, c.weights, alphaValuesNumber := n)
    case AlphaList(v) =>
      ProgramParametersFromValues(c.file, c.eps, c.aggregator, c.tieResolver, c.weights, alphaValues := v)
  }

  /** The alpha-values-number loop, run over `numbers`: only Borda and
      Copeland aggregators emit. */
  function NumberCombos(file: Json, eps: Json, aggregator: Json, tieResolver: Json, weights: Json,
                        numbers: seq<Json>): seq<Combination>
    decreases |numbers|
  {
    if numbers == [] then []
    else
      NumberCombos(file, eps, aggregator, tieResolver, weights, numbers[..|numbers| - 1])
      + if !BordaOrCopeland(aggregator) then []
        else [Combination(file, eps, aggregator, tieResolver, weights, AlphaNumber(numbers[|numbers| - 1]))]
  }

  /** The alpha-values loop, run over `lists`: only Default and Weighted
      aggregators emit. */
  function ValuesCombos(file: Json, eps: Json, aggregator: Json, tieResolver: Json, weights: Json,
                        lists: seq<Json>): seq<Combination>
    decreases |lists|
  {
    if lists == [] then []
    else
      ValuesCombos(file, eps, aggregator, tieResolver, weights, lists[..|lists| - 1])
      + if !DefaultOrWeighted(aggregator) then []
        else [Combination(file, eps, aggregator, tieResolver, weights, AlphaList(lists[|lists| - 1]))]
  }

  /** The body of the weights loop for one weights value: the number branch, then the values branch. */
  function WeightCombos(sw: Sweep, file: Json, eps: Json, aggregator: Json, tieResolver: Json, weights: Json): seq<Combination> {
    NumberCombos(file, eps, aggregator, tieResolver, weights, sw.alphaValuesNumbers)
    + ValuesCombos(file, eps, aggregator, tieResolver, weights, sw.alphaValuesLists)
  }

  /** The weights loop, run over `ws`. */
  function WeightsCombos(sw: Sweep, file: Json, eps: Json, aggregator: Json, tieResolver: Json,
                         ws: seq<Json>): seq<Combination>
    decreases |ws|
  {
    if ws == [] then []
    else
      WeightsCombos(sw, file, eps, aggregator, tieResolver, ws[..|ws| - 1])
      + WeightCombos(sw, file, eps, aggregator, tieResolver, ws[|ws| - 1])
  }

  /** The tie-resolver loop, run over `rs`, skipping pruned tie resolvers. */
  function TieCombos(sw: Sweep, file: Json, eps: Json, aggregator: Json, rs: seq<Json>): seq<Combination>
    decreases |rs|
  {
    if rs == [] then []
    else
      TieCombos(sw, file, eps, aggregator, rs[..|rs| - 1])
      + if TieResolverPruned(aggregator, rs[|rs| - 1]) then []
        else WeightsCombos(sw, file, eps, aggregator, rs[|rs| - 1], sw.alphaWeights)
  }

  /** The aggregator loop, run over `aggs`. */
  function AggregatorCombos(sw: Sweep, file: Json, eps: Json, aggs: seq<Json>): seq<Combination>
    decreases |aggs|
  {
    if aggs == [] then []
    else
      AggregatorCombos(sw, file, eps, aggs[..|aggs| - 1])
      + TieCombos(sw, file, eps, aggs[|aggs| - 1], sw.tieResolvers)
  }

  /** The eps loop, run over `es`. */
  function EpsCombos(sw: Sweep, file: Json, es: seq<Json>): seq<Combination>
    decreases |es|
  {
    if es == [] then []
    else EpsCombos(sw, file, es[..|es| - 1]) + AggregatorCombos(sw, file, es[|es| - 1], sw.aggregators)
  }

  /** The file loop, run over `fs`. */
  function FileCombos(sw: Sweep, fs: seq<Json>): seq<Combination>
    decreases |fs|
  {
    if fs == [] then []
    else FileCombos(sw, fs[..|fs| - 1]) + EpsCombos(sw, fs[|fs| - 1], sw.epsValues)
  }

  /** Every combination the sweep emits, in emission order. */
  function Combinations(sw: Sweep): seq<Combination> {
    FileCombos(sw, sw.files)
  }

  /** The tasks built for a sequence of combinations, position by position. */
  function TasksOf(cs: seq<Combination>): (ts: seq<ProgramParameters>)
    ensures |ts| == |cs|
    ensures forall i :: 0 <= i < |cs| ==> ts[i] == TaskOf(cs[i])
    decreases |cs|
  {
    if cs == [] then [] else TasksOf(cs[..|cs| - 1]) + [TaskOf(cs[|cs| - 1])]
  }

  /** The ordered task list of a validated sweep. */
  function Expand(sw: Sweep): seq<ProgramParameters> {
    TasksOf(Combinations(sw))
  }

  /** The whole configuration step: validation, defaults, expansion. */
  function Configs(data: map<string, Json>, defaults: Defaults): Result<seq<ProgramParameters>, ConfigError> {
    var sw :- ParseSweep(data, defaults);
    Ok(Expand(sw))
  }
  // One more iteration of a loop appends that iteration's combinations:
  // the steps the imperative expansion takes, one lemma per loop.

  lemma NumberStep(file: Json, eps: Json, aggregator: Json, tieResolver: Json, weights: Json, numbers: seq<Json>, n: nat)
    requires n < |numbers|
    ensures !BordaOrCopeland(aggregator) ==>
              NumberCombos(file, eps, aggregator, tieResolver, weights, numbers[..n + 1])
              == NumberCombos(file, eps, aggregator, tieResolver, weights, numbers[..n])
    ensures BordaOrCopeland(aggregator) ==>
              NumberCombos(file, eps, aggregator, tieResolver, weights, numbers[..n + 1])
              == NumberCombos(file, eps, aggregator, tieResolver, weights, numbers[..n])
                 + [Combination(file, eps, aggregator, tieResolver, weights, AlphaNumber(numbers[n]))]
  {
    assert numbers[..n + 1][..n] == numbers[..n];
  }

  lemma ValuesStep(file: Json, eps: Json, aggregator: Json, tieResolver: Json, weights: Json, lists: seq<Json>, n: nat)
    requires n < |lists|
    ensures !DefaultOrWeighted(aggregator) ==>
              ValuesCombos(file, eps, aggregator, tieResolver, weights, lists[..n + 1])
              == ValuesCombos(file, eps, aggregator, tieResolver, weights, lists[..n])
    ensures DefaultOrWeighted(aggregator) ==>
              ValuesCombos(file, eps, aggregator, tieResolver, weights, lists[..n + 1])
              == ValuesCombos(file, eps, aggregator, tieResolver, weights, lists[..n])
                 + [Combination(file, eps, aggregator, tieResolver, weights, AlphaList(lists[n]))]
  {
    assert lists[..n + 1][..n] == lists[..n];
  }

  lemma WeightsStep(sw: Sweep, file: Json, eps: Json, aggregator: Json, tieResolver: Json, ws: seq<Json>, m: nat)
    requires m < |ws|
    ensures WeightsCombos(sw, file, eps, aggregator, tieResolver, ws[..m + 1])
         == WeightsCombos(sw, file, eps, aggregator, tieResolver, ws[..m])
            + WeightCombos(sw, file, eps, aggregator, tieResolver, ws[m])
  {
    assert ws[..m + 1][..m] == ws[..m];
  }

  lemma TieStep(sw: Sweep, file: Json, eps: Json, aggregator: Json, rs: seq<Json>, l: nat)
    requires l < |rs|
    ensures TieResolverPruned(aggregator, rs[l]) ==>
              TieCombos(sw, file, eps, aggregator, rs[..l + 1]) == TieCombos(sw, file, eps, aggregator, rs[..l])
    ensures !TieResolverPruned(aggregator, rs[l]) ==>
              TieCombos(sw, file, eps, aggregator, rs[..l + 1])
              == TieCombos(sw, file, eps, aggregator, rs[..l])
                 + WeightsCombos(sw, file, eps, aggregator, rs[l], sw.alphaWeights)
  {
    assert rs[..l + 1][..l] == rs[..l];
  }

  lemma AggregatorStep(sw: Sweep, file: Json, eps: Json, aggs: seq<Json>, k: nat)
    requires k < |aggs|
    ensures AggregatorCombos(sw, file, eps, aggs[..k + 1])
         == AggregatorCombos(sw, file, eps, aggs[..k]) + TieCombos(sw, file, eps, aggs[k], sw.tieResolvers)
  {
    assert aggs[..k + 1][..k] == aggs[..k];
  }

  lemma EpsStep(sw: Sweep, file: Json, es: seq<Json>, j: nat)
    requires j < |es|
    ensures EpsCombos(sw, file, es[..j + 1]) == EpsCombos(sw, file, es[..j]) + AggregatorCombos(sw, file, es[j], sw.aggregators)
  {
    assert es[..j + 1][..j] == es[..j];
  }

  lemma FileStep(sw: Sweep, fs: seq<Json>, i: nat)
    requires i < |fs|
    ensures FileCombos(sw, fs[..i + 1]) == FileCombos(sw, fs[..i]) + EpsCombos(sw, fs[i], sw.epsValues)
  {
    assert fs[..i + 1][..i] == fs[..i];
  }

  /** Appending combinations appends their tasks. */
  lemma {:induction false} TasksOfAppend(cs: seq<Combination>, ds: seq<Combination>)
    ensures TasksOf(cs + ds) == TasksOf(cs) + TasksOf(ds)
    decreases |ds|
  {
    if ds != [] {
      var init := ds[..|ds| - 1];
      TasksOfAppend(cs, init);
      assert (cs + ds)[..|cs + ds| - 1] == cs + init;
    }
  }

  lemma ConcatAssoc<T>(a: seq<T>, b: seq<T>, c: seq<T>)
    ensures (a + b) + c == a + (b + c)
  {
  }
}
