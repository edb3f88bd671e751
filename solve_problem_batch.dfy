/** The batch driver: configuration expansion as the nested loops that
    append one task per emitted combination, and the loop that runs the
    tasks and tallies the outcomes.

    The six loops of the expansion are split over six methods, one loop
    each; every one appends to the task list it is given the tasks of the
    combinations its loop emits. */
module SolveProblemBatch {
  import opened Results
  import opened JsonValues
  import opened Parameters
  import opened SweepSpec
  import opened BatchTally

  /** Appending the task built for `c` extends the tasks of `done` to those
      of `done + [c]`. */
  lemma AppendTask(tasks: seq<ProgramParameters>, done: seq<Combination>, c: Combination, task: ProgramParameters)
    requires task == TaskOf(c)
    ensures (tasks + TasksOf(done)) + [task] == tasks + TasksOf(done + [c])
  {
    TasksOfAppend(done, [c]);
    ConcatAssoc(tasks, TasksOf(done), [task]);
  }

  /** The alpha-values-number loop for one weights value: one task per
      number of alpha values, for Borda and Copeland aggregators only. */
  method AppendNumberTasks(sw: Sweep, file: Json, eps: Json, aggregator: Json, tieResolver: Json, weights: Json,
                           tasks: seq<ProgramParameters>)
    returns (tasks': seq<ProgramParameters>)
    ensures tasks' == tasks + TasksOf(NumberCombos(file, eps, aggregator, tieResolver, weights, sw.alphaValuesNumbers))
  {
    tasks' := tasks;
    var alphaValuesNumberList := sw.alphaValuesNumbers;
    for n := 0 to |alphaValuesNumberList|
      invariant tasks' == tasks + TasksOf(NumberCombos(file, eps, aggregator, tieResolver, weights, alphaValuesNumberList[..n]))
    {
      var alphaValuesNumber := alphaValuesNumberList[n];
      NumberStep(file, eps, aggregator, tieResolver, weights, alphaValuesNumberList, n);
      if !BordaOrCopeland(aggregator) {
        continue;
      }
      ghost var c := Combination(file, eps, aggregator, tieResolver, weights, AlphaNumber(alphaValuesNumber));
      var task := ProgramParametersFromValues(file, eps, aggregator, tieResolver, weights,
                                              alphaValuesNumber := alphaValuesNumber);
      AppendTask(tasks, NumberCombos(file, eps, aggregator, tieResolver, weights, alphaValuesNumberList[..n]), c, task);
      tasks' := tasks' + [task];
    }
    assert alphaValuesNumberList[..|alphaValuesNumberList|] == alphaValuesNumberList;
  }

  /** The alpha-values loop for one weights value: one task per list of
      alpha values, for Default and Weighted aggregators only. */
  method AppendValuesTasks(sw: Sweep, file: Json, eps: Json, aggregator: Json, tieResolver: Json, weights: Json,
                           tasks: seq<ProgramParameters>)
    returns (tasks': seq<ProgramParameters>)
    ensures tasks' == tasks + TasksOf(ValuesCombos(file, eps, aggregator, tieResolver, weights, sw.alphaValuesLists))
  {
    tasks' := tasks;
    var alphaValuesList := sw.alphaValuesLists;
    for n := 0 to |alphaValuesList|
      invariant tasks' == tasks + TasksOf(ValuesCombos(file, eps, aggregator, tieResolver, weights, alphaValuesList[..n]))
    {
      var alphaValues := alphaValuesList[n];
      ValuesStep(file, eps, aggregator, tieResolver, weights, alphaValuesList, n);
      if !DefaultOrWeighted(aggregator) {
        continue;
      }
      ghost var c := Combination(file, eps, aggregator, tieResolver, weights, AlphaList(alphaValues));
      var task := ProgramParametersFromValues(file, eps, aggregator, tieResolver, weights,
                                              alphaValues := alphaValues);
      AppendTask(tasks, ValuesCombos(file, eps, aggregator, tieResolver, weights, alphaValuesList[..n]), c, task);
      tasks' := tasks' + [task];
    }
    assert alphaValuesList[..|alphaValuesList|] == alphaValuesList;
  }

  /** The weights loop for one tie resolver: for each weights value, the
      number branch and then the values branch. */
  method AppendWeightsTasks(sw: Sweep, file: Json, eps: Json, aggregator: Json, tieResolver: Json,
                            tasks: seq<ProgramParameters>)
    returns (tasks': seq<ProgramParameters>)
    ensures tasks' == tasks + TasksOf(WeightsCombos(sw, file, eps, aggregator, tieResolver, sw.alphaWeights))
  {
    tasks' := tasks;
    var alphaWeights := sw.alphaWeights;
    for m := 0 to |alphaWeights|
      invariant tasks' == tasks + TasksOf(WeightsCombos(sw, file, eps, aggregator, tieResolver, alphaWeights[..m]))
    {
      var weights := alphaWeights[m];
      WeightsStep(sw, file, eps, aggregator, tieResolver, alphaWeights, m);
      ghost var done := WeightsCombos(sw, file, eps, aggregator, tieResolver, alphaWeights[..m]);
      ghost var numbers := NumberCombos(file, eps, aggregator, tieResolver, weights, sw.alphaValuesNumbers);
      ghost var lists := ValuesCombos(file, eps, aggregator, tieResolver, weights, sw.alphaValuesLists);
      TasksOfAppend(numbers, lists);
      TasksOfAppend(done, numbers + lists);
      tasks' := AppendNumberTasks(sw, file, eps, aggregator, tieResolver, weights, tasks');
      tasks' := AppendValuesTasks(sw, file, eps, aggregator, tieResolver, weights, tasks');
      ConcatAssoc(tasks, TasksOf(done), TasksOf(numbers));
      ConcatAssoc(tasks + TasksOf(done), TasksOf(numbers), TasksOf(lists));
      ConcatAssoc(tasks, TasksOf(done), TasksOf(numbers) + TasksOf(lists));
    }
    assert alphaWeights[..|alphaWeights|] == alphaWeights;
  }

  /** The tie-resolver loop for one aggregator: a Borda or Copeland
      aggregator skips every tie resolver other than `NoResolver`. */
  method AppendTieTasks(sw: Sweep, file: Json, eps: Json, aggregator: Json,
                               tasks: seq<ProgramParameters>)
    returns (tasks': seq<ProgramParameters>)
    ensures tasks' == tasks + TasksOf(TieCombos(sw, file, eps, aggregator, sw.tieResolvers))
  {
    tasks' := tasks;
    var tieResolvers := sw.tieResolvers;
    for l := 0 to |tieResolvers|
      invariant tasks' == tasks + TasksOf(TieCombos(sw, file, eps, aggregator, tieResolvers[..l]))
    {
      var tieResolver := tieResolvers[l];
      TieStep(sw, file, eps, aggregator, tieResolvers, l);
      if BordaOrCopeland(aggregator) && tieResolver != NoResolver {
        continue;
      }
      ghost var done := TieCombos(sw, file, eps, aggregator, tieResolvers[..l]);
      ghost var block := WeightsCombos(sw, file, eps, aggregator, tieResolver, sw.alphaWeights);
      TasksOfAppend(done, block);
      tasks' := AppendWeightsTasks(sw, file, eps, aggregator, tieResolver, tasks');
      ConcatAssoc(tasks, TasksOf(done), TasksOf(block));
    }
    assert tieResolvers[..|tieResolvers|] == tieResolvers;
  }

  /** The aggregator loop for one eps value. */
  method AppendAggregatorTasks(sw: Sweep, file: Json, eps: Json, tasks: seq<ProgramParameters>)
    returns (tasks': seq<ProgramParameters>)
    ensures tasks' == tasks + TasksOf(AggregatorCombos(sw, file, eps, sw.aggregators))
  {
    tasks' := tasks;
    var aggregators := sw.aggregators;
    for k := 0 to |aggregators|
      invariant tasks' == tasks + TasksOf(AggregatorCombos(sw, file, eps, aggregators[..k]))
    {
      AggregatorStep(sw, file, eps, aggregators, k);
      ghost var done := AggregatorCombos(sw, file, eps, aggregators[..k]);
      ghost var block := TieCombos(sw, file, eps, aggregators[k], sw.tieResolvers);
      TasksOfAppend(done, block);
      tasks' := AppendTieTasks(sw, file, eps, aggregators[k], tasks');
      ConcatAssoc(tasks, TasksOf(done), TasksOf(block));
    }
    assert aggregators[..|aggregators|] == aggregators;
  }

  /** The eps loop for one problem file. */
  method AppendEpsTasks(sw: Sweep, file: Json, tasks: seq<ProgramParameters>)
    returns (tasks': seq<ProgramParameters>)
    ensures tasks' == tasks + TasksOf(EpsCombos(sw, file, sw.epsValues))
  {
    tasks' := tasks;
    var epsValues := sw.epsValues;
    for j := 0 to |epsValues|
      invariant tasks' == tasks + TasksOf(EpsCombos(sw, file, epsValues[..j]))
    {
      EpsStep(sw, file, epsValues, j);
      ghost var done := EpsCombos(sw, file, epsValues[..j]);
      ghost var block := AggregatorCombos(sw, file, epsValues[j], sw.aggregators);
      TasksOfAppend(done, block);
      tasks' := AppendAggregatorTasks(sw, file, epsValues[j], tasks');
      ConcatAssoc(tasks, TasksOf(done), TasksOf(block));
    }
    assert epsValues[..|epsValues|] == epsValues;
  }

  /** The file loop: expands a validated sweep into its task list. */
  method ExpandSweep(sw: Sweep) returns (tasks: seq<ProgramParameters>)
    ensures tasks == Expand(sw)
  {
    tasks := [];
    var files := sw.files;
    for i := 0 to |files|
      invariant tasks == TasksOf(FileCombos(sw, files[..i]))
    {
      FileStep(sw, files, i);
      TasksOfAppend(FileCombos(sw, files[..i]), EpsCombos(sw, files[i], sw.epsValues));
      tasks := AppendEpsTasks(sw, files[i], tasks);
    }
    assert files[..|files|] == files;
  }

  /** Validates the decoded sweep description, fills in the defaults and
      expands it. Its result is exactly `Configs`. */
  method CreateConfigs(data: map<string, Json>, defaults: Defaults)
    returns (r: Result<seq<ProgramParameters>, ConfigError>)
    ensures r == Configs(data, defaults)
  {
    if ProblemFilesKey !in data || !data[ProblemFilesKey].JArray? {
      return Err(ProblemFilesNotList);
    }
    if |data[ProblemFilesKey].items| < 1 {
      return Err(NoProblemFiles);
    }
    var files := data[ProblemFilesKey].items;
    var epsValues :- Dimension(data, EpsValuesKey, defaults.eps);
    var aggregators :- Dimension(data, AggregatorsKey, defaults.aggregator);
    var tieResolvers :- Dimension(data, TieResolversKey, defaults.tieResolver);
    var alphaWeights :- Dimension(data, AlphaWeightsListsKey, defaults.alphaWeights);
    var alphaValuesNumberList :- Dimension(data, AlphaValuesNumberKey, defaults.alphaValuesNumber);
    var alphaValuesList :- Dimension(data, AlphaValuesListsKey, defaults.alphaValues);
    var sw := Sweep(files, epsValues, aggregators, tieResolvers, alphaWeights,
                    alphaValuesNumberList, alphaValuesList);
    assert ParseSweep(data, defaults) == Ok(sw);
    var tasks := ExpandSweep(sw);
    return Ok(tasks);
  }

  /** The runner loop: attempts every task in list order, a failing task
      only leaving the success counter unchanged, and reports the total,
      the successes and `total - success` as the failures. `attempted`
      records the tasks handed to the solver, in order. */
  method RunBatch(launchParameters: seq<ProgramParameters>, solve: ProgramParameters -> bool)
    returns (attempted: seq<ProgramParameters>, report: BatchReport)
    ensures attempted == launchParameters
    ensures report.total == |launchParameters|
    ensures report.succeeded == Succeeded(launchParameters, solve) <= report.total
    ensures report.failed == report.total - report.succeeded
  {
    var success := 0;
    var allCombinations := |launchParameters|;
    attempted := [];
    for i := 0 to |launchParameters|
      invariant attempted == launchParameters[..i]
      invariant success == Succeeded(launchParameters[..i], solve)
    {
      var launchParameter := launchParameters[i];
      assert launchParameters[..i + 1][..i] == launchParameters[..i];
      attempted := attempted + [launchParameter];
      if solve(launchParameter) {
        success := success + 1;
      }
    }
    assert launchParameters[..|launchParameters|] == launchParameters;
    report := BatchReport(allCombinations, success, allCombinations - success);
  }

  /** The driver after its configuration has been decoded: a rejected
      configuration aborts before any task is attempted; otherwise every
      generated task is attempted and the outcomes tallied. */
  method SolveBatch(data: map<string, Json>, defaults: Defaults, solve: ProgramParameters -> bool)
    returns (r: Result<BatchReport, ConfigError>, attempted: seq<ProgramParameters>)
    ensures Configs(data, defaults).Err? ==> r == Err(Configs(data, defaults).error) && attempted == []
    ensures Configs(data, defaults).Ok? ==>
      && attempted == Configs(data, defaults).value
      && r.Ok?
      && r.value.total == |attempted|
      && r.value.succeeded == Succeeded(attempted, solve)
      && r.value.failed == r.value.total - r.value.succeeded
  {
    attempted := [];
    var launchParameters := CreateConfigs(data, defaults);
    if launchParameters.Err? {
      return Err(launchParameters.error), attempted;
    }
    var report;
    attempted, report := RunBatch(launchParameters.value, solve);
    r := Ok(report);
  }
}
