/** Which combinations the expansion emits: exactly those whose values are
    drawn from the sweep's lists, whose tie resolver is not pruned for its
    aggregator, and whose alpha setting belongs to the aggregator's family.
    Each lemma states this for one loop, over any prefix of its list. */
module SweepMembership {
  import opened JsonValues
  import opened Parameters
  import opened SweepSpec

  /** The alpha setting is one the aggregator's family takes, drawn from the matching list. */
  predicate AlphaAdmissible(sw: Sweep, aggregator: Json, alpha: Alpha) {
    match alpha
    case AlphaNumber(n) => BordaOrCopeland(aggregator) && n in sw.alphaValuesNumbers
    case AlphaList(v) => DefaultOrWeighted(aggregator) && v in sw.alphaValuesLists
  }

  /** What the three inner loops demand of a combination: its tie resolver
      is not pruned, its weights come from the sweep, and its alpha setting
      is admissible for its aggregator. */
  predicate InnerAdmissible(sw: Sweep, c: Combination) {
    && !TieResolverPruned(c.aggregator, c.tieResolver)
    && c.weights in sw.alphaWeights
    && AlphaAdmissible(sw, c.aggregator, c.alpha)
  }

  /** A combination the sweep must emit: every value comes from the
      matching list, and the inner loops keep it. */
  predicate Admissible(sw: Sweep, c: Combination) {
    && c.file in sw.files
    && c.eps in sw.epsValues
    && c.aggregator in sw.aggregators
    && c.tieResolver in sw.tieResolvers
    && InnerAdmissible(sw, c)
  }

  lemma MemberSnoc(xs: seq<Json>, v: Json)
    requires xs != []
    ensures v in xs <==> v in xs[..|xs| - 1] || v == xs[|xs| - 1]
  {
    assert xs == xs[..|xs| - 1] + [xs[|xs| - 1]];
  }

  lemma MemberConcat(a: seq<Combination>, b: seq<Combination>, c: Combination)
    ensures c in a + b <==> c in a || c in b
  {
  }

  lemma {:induction false} NumberMembers(file: Json, eps: Json, aggregator: Json, tieResolver: Json, weights: Json,
                                         numbers: seq<Json>, c: Combination)
    ensures c in NumberCombos(file, eps, aggregator, tieResolver, weights, numbers)
        <==> && c == Combination(file, eps, aggregator, tieResolver, weights, c.alpha)
             && BordaOrCopeland(aggregator)
             && c.alpha.AlphaNumber?
             && c.alpha.number in numbers
    decreases |numbers|
  {
    if numbers != [] {
      var init := numbers[..|numbers| - 1];
      var last := numbers[|numbers| - 1];
      NumberMembers(file, eps, aggregator, tieResolver, weights, init, c);
      assert numbers == init + [last];
      assert forall v :: v in numbers <==> v in init || v == last;
    }
  }

  lemma {:induction false} ValuesMembers(file: Json, eps: Json, aggregator: Json, tieResolver: Json, weights: Json,
                                         lists: seq<Json>, c: Combination)
    ensures c in ValuesCombos(file, eps, aggregator, tieResolver, weights, lists)
        <==> && c == Combination(file, eps, aggregator, tieResolver, weights, c.alpha)
             && DefaultOrWeighted(aggregator)
             && c.alpha.AlphaList?
             && c.alpha.values in lists
    decreases |lists|
  {
    if lists != [] {
      var init := lists[..|lists| - 1];
      var last := lists[|lists| - 1];
      ValuesMembers(file, eps, aggregator, tieResolver, weights, init, c);
      assert lists == init + [last];
      assert forall v :: v in lists <==> v in init || v == last;
    }
  }

  lemma {:induction false} WeightsMembers(sw: Sweep, file: Json, eps: Json, aggregator: Json, tieResolver: Json,
                                          ws: seq<Json>, c: Combination)
    ensures c in WeightsCombos(sw, file, eps, aggregator, tieResolver, ws)
        <==> && c.file == file && c.eps == eps && c.aggregator == aggregator && c.tieResolver == tieResolver
             && c.weights in ws
             && AlphaAdmissible(sw, aggregator, c.alpha)
    decreases |ws|
  {
    if ws != [] {
      var init := ws[..|ws| - 1];
      var weights := ws[|ws| - 1];
      var numbers := NumberCombos(file, eps, aggregator, tieResolver, weights, sw.alphaValuesNumbers);
      var lists := ValuesCombos(file, eps, aggregator, tieResolver, weights, sw.alphaValuesLists);
      var rest := WeightsCombos(sw, file, eps, aggregator, tieResolver, init);
      WeightsMembers(sw, file, eps, aggregator, tieResolver, init, c);
      NumberMembers(file, eps, aggregator, tieResolver, weights, sw.alphaValuesNumbers, c);
      ValuesMembers(file, eps, aggregator, tieResolver, weights, sw.alphaValuesLists, c);
      MemberConcat(rest, numbers + lists, c);
      MemberConcat(numbers, lists, c);
      assert WeightsCombos(sw, file, eps, aggregator, tieResolver, ws) == rest + (numbers + lists);
      MemberSnoc(ws, c.weights);
    }
  }

  lemma {:induction false} TieMembers(sw: Sweep, file: Json, eps: Json, aggregator: Json, rs: seq<Json>, c: Combination)
    ensures c in TieCombos(sw, file, eps, aggregator, rs)
        <==> && c.file == file && c.eps == eps && c.aggregator == aggregator
             && c.tieResolver in rs
             && InnerAdmissible(sw, c)
    decreases |rs|
  {
    if rs != [] {
      var init := rs[..|rs| - 1];
      var tieResolver := rs[|rs| - 1];
      var rest := TieCombos(sw, file, eps, aggregator, init);
      var block := if TieResolverPruned(aggregator, tieResolver) then []
                   else WeightsCombos(sw, file, eps, aggregator, tieResolver, sw.alphaWeights);
      TieMembers(sw, file, eps, aggregator, init, c);
      WeightsMembers(sw, file, eps, aggregator, tieResolver, sw.alphaWeights, c);
      assert TieCombos(sw, file, eps, aggregator, rs) == rest + block;
      MemberConcat(rest, block, c);
      MemberSnoc(rs, c.tieResolver);
    }
  }

  lemma {:induction false} AggregatorMembers(sw: Sweep, file: Json, eps: Json, aggs: seq<Json>, c: Combination)
    ensures c in AggregatorCombos(sw, file, eps, aggs)
        <==> && c.file == file && c.eps == eps
             && c.aggregator in aggs && c.tieResolver in sw.tieResolvers
             && InnerAdmissible(sw, c)
    decreases |aggs|
  {
    if aggs != [] {
      var init := aggs[..|aggs| - 1];
      var aggregator := aggs[|aggs| - 1];
      var rest := AggregatorCombos(sw, file, eps, init);
      var block := TieCombos(sw, file, eps, aggregator, sw.tieResolvers);
      AggregatorMembers(sw, file, eps, init, c);
      TieMembers(sw, file, eps, aggregator, sw.tieResolvers, c);
      assert AggregatorCombos(sw, file, eps, aggs) == rest + block;
      MemberConcat(rest, block, c);
      MemberSnoc(aggs, c.aggregator);
    }
  }

  lemma {:induction false} EpsMembers(sw: Sweep, file: Json, es: seq<Json>, c: Combination)
    ensures c in EpsCombos(sw, file, es)
        <==> && c.file == file
             && c.eps in es && c.aggregator in sw.aggregators && c.tieResolver in sw.tieResolvers
             && InnerAdmissible(sw, c)
    decreases |es|
  {
    if es != [] {
      var init := es[..|es| - 1];
      var eps := es[|es| - 1];
      var rest := EpsCombos(sw, file, init);
      var block := AggregatorCombos(sw, file, eps, sw.aggregators);
      EpsMembers(sw, file, init, c);
      AggregatorMembers(sw, file, eps, sw.aggregators, c);
      assert EpsCombos(sw, file, es) == rest + block;
      MemberConcat(rest, block, c);
      MemberSnoc(es, c.eps);
    }
  }

  lemma {:induction false} FileMembers(sw: Sweep, fs: seq<Json>, c: Combination)
    ensures c in FileCombos(sw, fs)
        <==> && c.file in fs
             && c.eps in sw.epsValues && c.aggregator in sw.aggregators && c.tieResolver in sw.tieResolvers
             && InnerAdmissible(sw, c)
    decreases |fs|
  {
    if fs != [] {
      var init := fs[..|fs| - 1];
      var file := fs[|fs| - 1];
      var rest := FileCombos(sw, init);
      var block := EpsCombos(sw, file, sw.epsValues);
      FileMembers(sw, init, c);
      EpsMembers(sw, file, sw.epsValues, c);
      assert FileCombos(sw, fs) == rest + block;
      MemberConcat(rest, block, c);
      MemberSnoc(fs, c.file);
    }
  }

  /** The expansion emits a combination exactly when it is admissible. */
  lemma CombinationsMembers(sw: Sweep, c: Combination)
    ensures c in Combinations(sw) <==> Admissible(sw, c)
  {
    FileMembers(sw, sw.files, c);
  }

  /** The task carries the file, eps, aggregator, tie resolver and weights
      of an iteration, drawn from the sweep's lists; a Borda or Copeland
      task has tie resolver `NoResolver`; it never carries both alpha
      fields, and the one it carries belongs to its aggregator's family and
      comes from the matching list. */
  predicate TaskAdmissible(sw: Sweep, t: ProgramParameters) {
    var p := t.rorParameters;
    && t.filename in sw.files
    && RequiredParameters <= p.Keys
    && p.Keys <= RequiredParameters + {AlphaValues, NumberOfAlphaValues}
    && p[Eps] in sw.epsValues
    && p[ResultsAggregator] in sw.aggregators
    && p[TieResolver] in sw.tieResolvers
    && p[AlphaWeights] in sw.alphaWeights
    && !TieResolverPruned(p[ResultsAggregator], p[TieResolver])
    && !(AlphaValues in p && NumberOfAlphaValues in p)
    && (NumberOfAlphaValues in p ==>
          BordaOrCopeland(p[ResultsAggregator]) && p[NumberOfAlphaValues] in sw.alphaValuesNumbers)
    && (AlphaValues in p ==>
          DefaultOrWeighted(p[ResultsAggregator]) && p[AlphaValues] in sw.alphaValuesLists)
  }

  /** The task built for an admissible combination carries its values:
      the combination's own file, eps, aggregator, tie resolver and weights,
      and its alpha candidate under the key of its branch (no alpha key at
      all when the candidate is `null`), so the task is admissible. */
  lemma TaskCarries(sw: Sweep, c: Combination)
    requires Admissible(sw, c)
    ensures var t := TaskOf(c);
            && t.filename == c.file
            && RequiredParameters <= t.rorParameters.Keys
            && t.rorParameters[Eps] == c.eps
            && t.rorParameters[ResultsAggregator] == c.aggregator
            && t.rorParameters[TieResolver] == c.tieResolver
            && t.rorParameters[AlphaWeights] == c.weights
    ensures var p := TaskOf(c).rorParameters;
            c.alpha.AlphaNumber? ==>
              && AlphaValues !in p
              && (NumberOfAlphaValues in p <==> c.alpha.number != JNull)
              && (NumberOfAlphaValues in p ==> p[NumberOfAlphaValues] == c.alpha.number)
    ensures var p := TaskOf(c).rorParameters;
            c.alpha.AlphaList? ==>
              && NumberOfAlphaValues !in p
              && (AlphaValues in p <==> c.alpha.values != JNull)
              && (AlphaValues in p ==> p[AlphaValues] == c.alpha.values)
    ensures TaskAdmissible(sw, TaskOf(c))
  {
    var t := TaskOf(c);
    if c.alpha.AlphaNumber? {
      assert t == ProgramParametersFromValues(c.file, c.eps, c.aggregator, c.tieResolver, c.weights,
                                              alphaValuesNumber := c.alpha.number);
    } else {
      assert t == ProgramParametersFromValues(c.file, c.eps, c.aggregator, c.tieResolver, c.weights,
                                              alphaValues := c.alpha.values);
    }
  }

  /** Every task of the expansion carries the values of its iteration. */
  lemma ExpandedTask(sw: Sweep, i: nat)
    requires i < |Expand(sw)|
    ensures TaskAdmissible(sw, Expand(sw)[i])
  {
    var c := Combinations(sw)[i];
    CombinationsMembers(sw, c);
    TaskCarries(sw, c);
    assert Expand(sw)[i] == TaskOf(c);
  }

  /** When no alpha candidate is `null`, every task carries exactly one of
      the two alpha fields (a `null` candidate is dropped, as `None` is). */
  lemma ExactlyOneAlpha(sw: Sweep, i: nat)
    requires i < |Expand(sw)|
    requires JNull !in sw.alphaValuesNumbers && JNull !in sw.alphaValuesLists
    ensures var p := Expand(sw)[i].rorParameters;
            (AlphaValues in p) != (NumberOfAlphaValues in p)
  {
    var c := Combinations(sw)[i];
    CombinationsMembers(sw, c);
    TaskCarries(sw, c);
    assert Expand(sw)[i] == TaskOf(c);
  }

  /** Every admissible combination is emitted as a task. */
  lemma AdmissibleEmitted(sw: Sweep, c: Combination)
    requires Admissible(sw, c)
    ensures TaskOf(c) in Expand(sw)
  {
    CombinationsMembers(sw, c);
    var cs := Combinations(sw);
    var i :| 0 <= i < |cs| && cs[i] == c;
    assert Expand(sw)[i] == TaskOf(c);
  }
}
