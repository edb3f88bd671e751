/** When the configuration step accepts a sweep description, and what it
    then returns. */
module SweepValidation {
  import opened Results
  import opened JsonValues
  import opened SweepSpec
  import opened SweepCounts

  /** An optional dimension is acceptable when it is absent or a list. */
  predicate DimensionAcceptable(data: map<string, Json>, key: string) {
    key in data ==> data[key].JArray?
  }

  /** The description names at least one problem file, as a list, and gives
      every optional dimension it names as a list. */
  predicate Acceptable(data: map<string, Json>) {
    && ProblemFilesKey in data
    && data[ProblemFilesKey].JArray?
    && data[ProblemFilesKey].items != []
    && forall key :: key in OptionalKeys ==> DimensionAcceptable(data, key)
  }

  /** The configuration step succeeds exactly on acceptable descriptions. */
  lemma ConfigsAccepts(data: map<string, Json>, defaults: Defaults)
    ensures Configs(data, defaults).Ok? <==> Acceptable(data)
  {
    ConfigsFollowsParse(data, defaults);
    EveryDimensionAcceptable(data);
  }

  /** `Acceptable`, with its quantifier over the optional keys written out. */
  lemma EveryDimensionAcceptable(data: map<string, Json>)
    ensures Acceptable(data)
        <==> && ProblemFilesKey in data && data[ProblemFilesKey].JArray? && data[ProblemFilesKey].items != []
             && DimensionAcceptable(data, EpsValuesKey) && DimensionAcceptable(data, AggregatorsKey)
             && DimensionAcceptable(data, TieResolversKey) && DimensionAcceptable(data, AlphaWeightsListsKey)
             && DimensionAcceptable(data, AlphaValuesNumberKey) && DimensionAcceptable(data, AlphaValuesListsKey)
  {
  }

  /** The configuration step fails exactly as validation does. */
  lemma ConfigsFollowsParse(data: map<string, Json>, defaults: Defaults)
    ensures Configs(data, defaults).Ok? <==> ParseSweep(data, defaults).Ok?
    ensures ParseSweep(data, defaults).Err? ==> Configs(data, defaults).error == ParseSweep(data, defaults).error
  {
  }

  /** A missing or malformed file list is reported before any optional
      dimension is looked at, and then no task is returned. */
  lemma ConfigsRejectsFiles(data: map<string, Json>, defaults: Defaults)
    ensures ProblemFilesKey !in data || !data[ProblemFilesKey].JArray? ==>
              Configs(data, defaults) == Err(ProblemFilesNotList)
    ensures ProblemFilesKey in data && data[ProblemFilesKey] == JArray([]) ==>
              Configs(data, defaults) == Err(NoProblemFiles)
  {
  }

  /** The first optional dimension, in source order, that is present but not
      a list is the one reported. */
  lemma ConfigsRejectsDimension(data: map<string, Json>, defaults: Defaults, key: string)
    requires ProblemFilesKey in data && data[ProblemFilesKey].JArray? && data[ProblemFilesKey].items != []
    requires key in OptionalKeys && !DimensionAcceptable(data, key)
    requires forall earlier :: earlier in KeysBefore(key) ==> DimensionAcceptable(data, earlier)
    ensures Configs(data, defaults) == Err(DimensionNotList(key))
  {
    ConfigsFollowsParse(data, defaults);
    if key == EpsValuesKey {
    } else if key == AggregatorsKey {
      assert EpsValuesKey in KeysBefore(key);
    } else if key == TieResolversKey {
      assert EpsValuesKey in KeysBefore(key) && AggregatorsKey in KeysBefore(key);
    } else if key == AlphaWeightsListsKey {
      assert EpsValuesKey in KeysBefore(key) && AggregatorsKey in KeysBefore(key);
      assert TieResolversKey in KeysBefore(key);
    } else if key == AlphaValuesNumberKey {
      assert EpsValuesKey in KeysBefore(key) && AggregatorsKey in KeysBefore(key);
      assert TieResolversKey in KeysBefore(key) && AlphaWeightsListsKey in KeysBefore(key);
    } else {
      assert EpsValuesKey in KeysBefore(key) && AggregatorsKey in KeysBefore(key);
      assert TieResolversKey in KeysBefore(key) && AlphaWeightsListsKey in KeysBefore(key);
      assert AlphaValuesNumberKey in KeysBefore(key);
    }
  }

  /** The optional keys checked before `key`. */
  function KeysBefore(key: string): set<string> {
    if key == EpsValuesKey then {}
    else if key == AggregatorsKey then {EpsValuesKey}
    else if key == TieResolversKey then {EpsValuesKey, AggregatorsKey}
    else if key == AlphaWeightsListsKey then {EpsValuesKey, AggregatorsKey, TieResolversKey}
    else if key == AlphaValuesNumberKey then {EpsValuesKey, AggregatorsKey, TieResolversKey, AlphaWeightsListsKey}
    else {EpsValuesKey, AggregatorsKey, TieResolversKey, AlphaWeightsListsKey, AlphaValuesNumberKey}
  }

  /** On an accepted description, the tasks are as many as the product of
      the file, eps and weights counts with the aggregators' summed shares,
      each dimension counted after defaulting. */
  lemma ConfigsCount(data: map<string, Json>, defaults: Defaults)
    requires Configs(data, defaults).Ok?
    ensures var sw := ParseSweep(data, defaults).value;
            |Configs(data, defaults).value|
            == |sw.files| * (|sw.epsValues| * (|sw.alphaWeights| * ShareSum(sw, sw.aggregators)))
  {
    ExpandCount(ParseSweep(data, defaults).value);
  }
}
