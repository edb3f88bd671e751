/** A worked sweep: one problem file, the Default and Borda aggregators and
    two tie resolvers. Default keeps both tie resolvers and takes the one
    list of alpha values; Borda keeps only `NoResolver` and takes the one
    number of alpha values: three tasks in all. */
module SweepExample {
  import opened Results
  import opened JsonValues
  import opened Parameters
  import opened SweepSpec
  import opened SweepOrder

  const File := JString("p.txt")
  const ExampleEps := JNumber("0.1")
  const DefaultAggregator := JString("DefaultResultAggregator")
  const BordaAggregator := JString("BordaResultAggregator")
  const BordaTieResolver := JString("BordaTieResolver")
  const Weights := JArray([JNumber("1"), JNumber("1"), JNumber("1")])
  const AlphaCount := JNumber("3")
  const ExampleAlphaValues := JArray([JNumber("0.0"), JNumber("0.5"), JNumber("1.0")])

  const Description: map<string, Json> := map[
    ProblemFilesKey := JArray([File]),
    EpsValuesKey := JArray([ExampleEps]),
    AggregatorsKey := JArray([DefaultAggregator, BordaAggregator]),
    TieResolversKey := JArray([NoResolver, BordaTieResolver]),
    AlphaWeightsListsKey := JArray([Weights]),
    AlphaValuesNumberKey := JArray([AlphaCount]),
    AlphaValuesListsKey := JArray([ExampleAlphaValues])]

  /** The sweep the description is validated into. */
  const ExampleSweep := Sweep([File], [ExampleEps], [DefaultAggregator, BordaAggregator], [NoResolver, BordaTieResolver],
                              [Weights], [AlphaCount], [ExampleAlphaValues])

  lemma AlphaSingles(aggregator: Json, tieResolver: Json)
    ensures WeightCombos(ExampleSweep, File, ExampleEps, aggregator, tieResolver, Weights)
         == (if BordaOrCopeland(aggregator)
             then [Combination(File, ExampleEps, aggregator, tieResolver, Weights, AlphaNumber(AlphaCount))] else [])
            + (if DefaultOrWeighted(aggregator)
               then [Combination(File, ExampleEps, aggregator, tieResolver, Weights, AlphaList(ExampleAlphaValues))] else [])
  {
    assert [AlphaCount][..0] == [] && [ExampleAlphaValues][..0] == [];
    assert NumberCombos(File, ExampleEps, aggregator, tieResolver, Weights, [AlphaCount])
        == NumberCombos(File, ExampleEps, aggregator, tieResolver, Weights, [])
           + if !BordaOrCopeland(aggregator) then []
             else [Combination(File, ExampleEps, aggregator, tieResolver, Weights, AlphaNumber(AlphaCount))];
    assert ValuesCombos(File, ExampleEps, aggregator, tieResolver, Weights, [ExampleAlphaValues])
        == ValuesCombos(File, ExampleEps, aggregator, tieResolver, Weights, [])
           + if !DefaultOrWeighted(aggregator) then []
             else [Combination(File, ExampleEps, aggregator, tieResolver, Weights, AlphaList(ExampleAlphaValues))];
  }

  lemma ExampleTies(aggregator: Json)
    ensures TieCombos(ExampleSweep, File, ExampleEps, aggregator, ExampleSweep.tieResolvers)
         == WeightsCombos(ExampleSweep, File, ExampleEps, aggregator, NoResolver, [Weights])
            + (if TieResolverPruned(aggregator, BordaTieResolver) then []
               else WeightsCombos(ExampleSweep, File, ExampleEps, aggregator, BordaTieResolver, [Weights]))
  {
    var sw := ExampleSweep;
    TieAppend(sw, File, ExampleEps, aggregator, [NoResolver], [BordaTieResolver]);
    TieSingle(sw, File, ExampleEps, aggregator, NoResolver);
    TieSingle(sw, File, ExampleEps, aggregator, BordaTieResolver);
    assert [NoResolver] + [BordaTieResolver] == sw.tieResolvers;
  }

  lemma ExampleParse(defaults: Defaults)
    ensures ParseSweep(Description, defaults) == Ok(ExampleSweep)
  {
  }

  /** The Default aggregator runs with both tie resolvers, on the alpha-values list. */
  lemma DefaultCombinations()
    ensures TieCombos(ExampleSweep, File, ExampleEps, DefaultAggregator, ExampleSweep.tieResolvers) == [
      Combination(File, ExampleEps, DefaultAggregator, NoResolver, Weights, AlphaList(ExampleAlphaValues)),
      Combination(File, ExampleEps, DefaultAggregator, BordaTieResolver, Weights, AlphaList(ExampleAlphaValues))]
  {
    var sw := ExampleSweep;
    assert DefaultOrWeighted(DefaultAggregator) && !BordaOrCopeland(DefaultAggregator);
    AlphaSingles(DefaultAggregator, NoResolver);
    AlphaSingles(DefaultAggregator, BordaTieResolver);
    WeightsSingle(sw, File, ExampleEps, DefaultAggregator, NoResolver, Weights);
    WeightsSingle(sw, File, ExampleEps, DefaultAggregator, BordaTieResolver, Weights);
    ExampleTies(DefaultAggregator);
  }

  /** The Borda aggregator runs only with `NoResolver`, on the alpha-values number. */
  lemma BordaCombinations()
    ensures TieCombos(ExampleSweep, File, ExampleEps, BordaAggregator, ExampleSweep.tieResolvers) == [
      Combination(File, ExampleEps, BordaAggregator, NoResolver, Weights, AlphaNumber(AlphaCount))]
  {
    var sw := ExampleSweep;
    assert BordaOrCopeland(BordaAggregator) && !DefaultOrWeighted(BordaAggregator);
    AlphaSingles(BordaAggregator, NoResolver);
    WeightsSingle(sw, File, ExampleEps, BordaAggregator, NoResolver, Weights);
    ExampleTies(BordaAggregator);
  }

  lemma ExampleCombinations()
    ensures Combinations(ExampleSweep) == [
      Combination(File, ExampleEps, DefaultAggregator, NoResolver, Weights, AlphaList(ExampleAlphaValues)),
      Combination(File, ExampleEps, DefaultAggregator, BordaTieResolver, Weights, AlphaList(ExampleAlphaValues)),
      Combination(File, ExampleEps, BordaAggregator, NoResolver, Weights, AlphaNumber(AlphaCount))]
  {
    var sw := ExampleSweep;
    DefaultCombinations();
    BordaCombinations();
    AggregatorAppend(sw, File, ExampleEps, [DefaultAggregator], [BordaAggregator]);
    AggregatorSingle(sw, File, ExampleEps, DefaultAggregator);
    AggregatorSingle(sw, File, ExampleEps, BordaAggregator);
    assert [DefaultAggregator] + [BordaAggregator] == sw.aggregators;
    EpsSingle(sw, File, ExampleEps);
    FileSingle(sw, File);
  }

  /** The tasks of the three combinations, in order. */
  const ExampleTasks := [
    ProgramParametersFromValues(File, ExampleEps, DefaultAggregator, NoResolver, Weights, alphaValues := ExampleAlphaValues),
    ProgramParametersFromValues(File, ExampleEps, DefaultAggregator, BordaTieResolver, Weights, alphaValues := ExampleAlphaValues),
    ProgramParametersFromValues(File, ExampleEps, BordaAggregator, NoResolver, Weights, alphaValuesNumber := AlphaCount)]

  lemma ExampleExpand()
    ensures Expand(ExampleSweep) == ExampleTasks
  {
    ExampleCombinations();
    var cs := Combinations(ExampleSweep);
    var ts := Expand(ExampleSweep);
    assert ts[0] == TaskOf(cs[0]) && ts[1] == TaskOf(cs[1]) && ts[2] == TaskOf(cs[2]);
    Three(ts);
  }

  lemma Three(ts: seq<ProgramParameters>)
    requires |ts| == 3
    ensures ts == [ts[0], ts[1], ts[2]]
  {
  }

  /** The description expands to the Default tasks for both tie resolvers,
      then the single Borda task. */
  lemma ExampleConfigs(defaults: Defaults)
    ensures Configs(Description, defaults) == Ok(ExampleTasks)
  {
    ExampleParse(defaults);
    ExampleExpand();
  }
}
