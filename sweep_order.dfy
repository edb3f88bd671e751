/** In which order the expansion emits its tasks: all tasks of a problem
    file before the next file's, within a file all tasks of an eps value
    before the next one's, and so on down to the alpha candidates, which
    appear in the order of their list. */
module SweepOrder {
  import opened JsonValues
  import opened Parameters
  import opened SweepSpec
  import opened SweepCounts
  import opened SweepMembership

  lemma SplitAt(xs: seq<Json>, q: nat)
    requires q < |xs|
    ensures xs == xs[..q] + ([xs[q]] + xs[q + 1..])
  {
  }

  lemma IndexInMiddle(before: seq<Combination>, block: seq<Combination>, after: seq<Combination>, n: nat, k: nat)
    requires |before| == n && k < |block|
    ensures n + k < |before + block + after|
    ensures (before + block + after)[n + k] == block[k]
  {
  }

  lemma {:induction false} NumberOrder(file: Json, eps: Json, aggregator: Json, tieResolver: Json, weights: Json,
                                       numbers: seq<Json>, k: nat)
    requires BordaOrCopeland(aggregator) && k < |numbers|
    ensures k < |NumberCombos(file, eps, aggregator, tieResolver, weights, numbers)|
    ensures NumberCombos(file, eps, aggregator, tieResolver, weights, numbers)[k]
         == Combination(file, eps, aggregator, tieResolver, weights, AlphaNumber(numbers[k]))
    decreases |numbers|
  {
    var init := numbers[..|numbers| - 1];
    NumberCount(file, eps, aggregator, tieResolver, weights, init);
    if k < |init| {
      NumberOrder(file, eps, aggregator, tieResolver, weights, init, k);
    }
  }

  lemma {:induction false} ValuesOrder(file: Json, eps: Json, aggregator: Json, tieResolver: Json, weights: Json,
                                       lists: seq<Json>, k: nat)
    requires DefaultOrWeighted(aggregator) && k < |lists|
    ensures k < |ValuesCombos(file, eps, aggregator, tieResolver, weights, lists)|
    ensures ValuesCombos(file, eps, aggregator, tieResolver, weights, lists)[k]
         == Combination(file, eps, aggregator, tieResolver, weights, AlphaList(lists[k]))
    decreases |lists|
  {
    var init := lists[..|lists| - 1];
    ValuesCount(file, eps, aggregator, tieResolver, weights, init);
    if k < |init| {
      ValuesOrder(file, eps, aggregator, tieResolver, weights, init, k);
    }
  }

  /** For one weights value, the k-th task carries the k-th alpha candidate
      of the aggregator's family, and nothing else is emitted. */
  lemma WeightOrder(sw: Sweep, file: Json, eps: Json, aggregator: Json, tieResolver: Json, weights: Json, k: nat)
    ensures |WeightCombos(sw, file, eps, aggregator, tieResolver, weights)| == AlphaShare(sw, aggregator)
    ensures BordaOrCopeland(aggregator) && k < |sw.alphaValuesNumbers| ==>
              WeightCombos(sw, file, eps, aggregator, tieResolver, weights)[k]
              == Combination(file, eps, aggregator, tieResolver, weights, AlphaNumber(sw.alphaValuesNumbers[k]))
    ensures DefaultOrWeighted(aggregator) && k < |sw.alphaValuesLists| ==>
              WeightCombos(sw, file, eps, aggregator, tieResolver, weights)[k]
              == Combination(file, eps, aggregator, tieResolver, weights, AlphaList(sw.alphaValuesLists[k]))
  {
    WeightCount(sw, file, eps, aggregator, tieResolver, weights);
    NumberCount(file, eps, aggregator, tieResolver, weights, sw.alphaValuesNumbers);
    if BordaOrCopeland(aggregator) && k < |sw.alphaValuesNumbers| {
      NumberOrder(file, eps, aggregator, tieResolver, weights, sw.alphaValuesNumbers, k);
    }
    if DefaultOrWeighted(aggregator) && k < |sw.alphaValuesLists| {
      ValuesOrder(file, eps, aggregator, tieResolver, weights, sw.alphaValuesLists, k);
    }
  }

  /** For one weights value, every task carries the alpha field of the
      aggregator's family, so no alpha-values task ever precedes an
      alpha-values-number task. */
  lemma NumbersBeforeValues(sw: Sweep, file: Json, eps: Json, aggregator: Json, tieResolver: Json, weights: Json,
                            i: nat, j: nat)
    requires i <= j < |WeightCombos(sw, file, eps, aggregator, tieResolver, weights)|
    ensures WeightCombos(sw, file, eps, aggregator, tieResolver, weights)[i].alpha.AlphaNumber?
        <==> BordaOrCopeland(aggregator)
    ensures WeightCombos(sw, file, eps, aggregator, tieResolver, weights)[j].alpha.AlphaNumber? ==>
              WeightCombos(sw, file, eps, aggregator, tieResolver, weights)[i].alpha.AlphaNumber?
  {
    WeightOrder(sw, file, eps, aggregator, tieResolver, weights, i);
    WeightOrder(sw, file, eps, aggregator, tieResolver, weights, j);
  }

  /** Running the weights value loop over `xs + ys` emits what running it over `xs`, then over `ys`, emits. */
  lemma {:induction false} WeightsAppend(sw: Sweep, file: Json, eps: Json, aggregator: Json, tieResolver: Json, xs: seq<Json>, ys: seq<Json>)
    ensures WeightsCombos(sw, file, eps, aggregator, tieResolver, xs + ys) == WeightsCombos(sw, file, eps, aggregator, tieResolver, xs) + WeightsCombos(sw, file, eps, aggregator, tieResolver, ys)
    decreases |ys|
  {
    if ys == [] {
      assert xs + ys == xs;
    } else {
      var init := ys[..|ys| - 1];
      var last := ys[|ys| - 1];
      WeightsAppend(sw, file, eps, aggregator, tieResolver, xs, init);
      assert (xs + ys)[..|xs + ys| - 1] == xs + init;
      assert (xs + ys)[|xs + ys| - 1] == last;
      ConcatAssoc(WeightsCombos(sw, file, eps, aggregator, tieResolver, xs), WeightsCombos(sw, file, eps, aggregator, tieResolver, init), WeightCombos(sw, file, eps, aggregator, tieResolver, last));
    }
  }

  lemma WeightsSingle(sw: Sweep, file: Json, eps: Json, aggregator: Json, tieResolver: Json, x: Json)
    ensures WeightsCombos(sw, file, eps, aggregator, tieResolver, [x]) == WeightCombos(sw, file, eps, aggregator, tieResolver, x)
  {
    assert [x][..0] == [];
  }

  /** The tasks of weights value `xs[q]` form one contiguous block, after
      those of the entries before it and before those of the entries after it. */
  lemma WeightsSplit(sw: Sweep, file: Json, eps: Json, aggregator: Json, tieResolver: Json, xs: seq<Json>, q: nat)
    requires q < |xs|
    ensures WeightsCombos(sw, file, eps, aggregator, tieResolver, xs)
         == WeightsCombos(sw, file, eps, aggregator, tieResolver, xs[..q]) + WeightCombos(sw, file, eps, aggregator, tieResolver, xs[q]) + WeightsCombos(sw, file, eps, aggregator, tieResolver, xs[q + 1..])
  {
    var before := xs[..q];
    var after := xs[q + 1..];
    SplitAt(xs, q);
    WeightsAppend(sw, file, eps, aggregator, tieResolver, before, [xs[q]] + after);
    WeightsAppend(sw, file, eps, aggregator, tieResolver, [xs[q]], after);
    WeightsSingle(sw, file, eps, aggregator, tieResolver, xs[q]);
    ConcatAssoc(WeightsCombos(sw, file, eps, aggregator, tieResolver, before), WeightsCombos(sw, file, eps, aggregator, tieResolver, [xs[q]]), WeightsCombos(sw, file, eps, aggregator, tieResolver, after));
  }

  /** The weights loop emits one block of `AlphaShare` tasks per weights
      value, in list order: offset `k` of block `q` is offset `k` of the
      tasks of weights value `ws[q]`. */
  lemma WeightsBlock(sw: Sweep, file: Json, eps: Json, aggregator: Json, tieResolver: Json, ws: seq<Json>,
                     q: nat, k: nat)
    requires q < |ws| && k < AlphaShare(sw, aggregator)
    ensures k < |WeightCombos(sw, file, eps, aggregator, tieResolver, ws[q])|
    ensures q * AlphaShare(sw, aggregator) + k < |WeightsCombos(sw, file, eps, aggregator, tieResolver, ws)|
    ensures WeightsCombos(sw, file, eps, aggregator, tieResolver, ws)[q * AlphaShare(sw, aggregator) + k]
         == WeightCombos(sw, file, eps, aggregator, tieResolver, ws[q])[k]
  {
    var before := WeightsCombos(sw, file, eps, aggregator, tieResolver, ws[..q]);
    var block := WeightCombos(sw, file, eps, aggregator, tieResolver, ws[q]);
    var after := WeightsCombos(sw, file, eps, aggregator, tieResolver, ws[q + 1..]);
    WeightsCount(sw, file, eps, aggregator, tieResolver, ws[..q]);
    WeightCount(sw, file, eps, aggregator, tieResolver, ws[q]);
    assert |ws[..q]| == q;
    IndexInMiddle(before, block, after, q * AlphaShare(sw, aggregator), k);
    WeightsSplit(sw, file, eps, aggregator, tieResolver, ws, q);
  }

  /** Running the tie resolver loop over `xs + ys` emits what running it over `xs`, then over `ys`, emits. */
  lemma {:induction false} TieAppend(sw: Sweep, file: Json, eps: Json, aggregator: Json, xs: seq<Json>, ys: seq<Json>)
    ensures TieCombos(sw, file, eps, aggregator, xs + ys) == TieCombos(sw, file, eps, aggregator, xs) + TieCombos(sw, file, eps, aggregator, ys)
    decreases |ys|
  {
    if ys == [] {
      assert xs + ys == xs;
    } else {
      var init := ys[..|ys| - 1];
      var last := ys[|ys| - 1];
      TieAppend(sw, file, eps, aggregator, xs, init);
      assert (xs + ys)[..|xs + ys| - 1] == xs + init;
      assert (xs + ys)[|xs + ys| - 1] == last;
      ConcatAssoc(TieCombos(sw, file, eps, aggregator, xs), TieCombos(sw, file, eps, aggregator, init), (if TieResolverPruned(aggregator, last) then [] else WeightsCombos(sw, file, eps, aggregator, last, sw.alphaWeights)));
    }
  }

  lemma TieSingle(sw: Sweep, file: Json, eps: Json, aggregator: Json, x: Json)
    ensures TieCombos(sw, file, eps, aggregator, [x]) == (if TieResolverPruned(aggregator, x) then [] else WeightsCombos(sw, file, eps, aggregator, x, sw.alphaWeights))
  {
    assert [x][..0] == [];
  }

  /** The tasks of tie resolver `xs[q]` form one contiguous block, after
      those of the entries before it and before those of the entries after it. */
  lemma TieSplit(sw: Sweep, file: Json, eps: Json, aggregator: Json, xs: seq<Json>, q: nat)
    requires q < |xs|
    ensures TieCombos(sw, file, eps, aggregator, xs)
         == TieCombos(sw, file, eps, aggregator, xs[..q]) + (if TieResolverPruned(aggregator, xs[q]) then [] else WeightsCombos(sw, file, eps, aggregator, xs[q], sw.alphaWeights)) + TieCombos(sw, file, eps, aggregator, xs[q + 1..])
  {
    var before := xs[..q];
    var after := xs[q + 1..];
    SplitAt(xs, q);
    TieAppend(sw, file, eps, aggregator, before, [xs[q]] + after);
    TieAppend(sw, file, eps, aggregator, [xs[q]], after);
    TieSingle(sw, file, eps, aggregator, xs[q]);
    ConcatAssoc(TieCombos(sw, file, eps, aggregator, before), TieCombos(sw, file, eps, aggregator, [xs[q]]), TieCombos(sw, file, eps, aggregator, after));
  }

  /** Running the aggregator loop over `xs + ys` emits what running it over `xs`, then over `ys`, emits. */
  lemma {:induction false} AggregatorAppend(sw: Sweep, file: Json, eps: Json, xs: seq<Json>, ys: seq<Json>)
    ensures AggregatorCombos(sw, file, eps, xs + ys) == AggregatorCombos(sw, file, eps, xs) + AggregatorCombos(sw, file, eps, ys)
    decreases |ys|
  {
    if ys == [] {
      assert xs + ys == xs;
    } else {
      var init := ys[..|ys| - 1];
      var last := ys[|ys| - 1];
      AggregatorAppend(sw, file, eps, xs, init);
      assert (xs + ys)[..|xs + ys| - 1] == xs + init;
      assert (xs + ys)[|xs + ys| - 1] == last;
      ConcatAssoc(AggregatorCombos(sw, file, eps, xs), AggregatorCombos(sw, file, eps, init), TieCombos(sw, file, eps, last, sw.tieResolvers));
    }
  }

  lemma AggregatorSingle(sw: Sweep, file: Json, eps: Json, x: Json)
    ensures AggregatorCombos(sw, file, eps, [x]) == TieCombos(sw, file, eps, x, sw.tieResolvers)
  {
    assert [x][..0] == [];
  }

  /** The tasks of aggregator `xs[q]` form one contiguous block, after
      those of the entries before it and before those of the entries after it. */
  lemma AggregatorSplit(sw: Sweep, file: Json, eps: Json, xs: seq<Json>, q: nat)
    requires q < |xs|
    ensures AggregatorCombos(sw, file, eps, xs)
         == AggregatorCombos(sw, file, eps, xs[..q]) + TieCombos(sw, file, eps, xs[q], sw.tieResolvers) + AggregatorCombos(sw, file, eps, xs[q + 1..])
  {
    var before := xs[..q];
    var after := xs[q + 1..];
    SplitAt(xs, q);
    AggregatorAppend(sw, file, eps, before, [xs[q]] + after);
    AggregatorAppend(sw, file, eps, [xs[q]], after);
    AggregatorSingle(sw, file, eps, xs[q]);
    ConcatAssoc(AggregatorCombos(sw, file, eps, before), AggregatorCombos(sw, file, eps, [xs[q]]), AggregatorCombos(sw, file, eps, after));
  }

  /** Running the eps value loop over `xs + ys` emits what running it over `xs`, then over `ys`, emits. */
  lemma {:induction false} EpsAppend(sw: Sweep, file: Json, xs: seq<Json>, ys: seq<Json>)
    ensures EpsCombos(sw, file, xs + ys) == EpsCombos(sw, file, xs) + EpsCombos(sw, file, ys)
    decreases |ys|
  {
    if ys == [] {
      assert xs + ys == xs;
    } else {
      var init := ys[..|ys| - 1];
      var last := ys[|ys| - 1];
      EpsAppend(sw, file, xs, init);
      assert (xs + ys)[..|xs + ys| - 1] == xs + init;
      assert (xs + ys)[|xs + ys| - 1] == last;
      ConcatAssoc(EpsCombos(sw, file, xs), EpsCombos(sw, file, init), AggregatorCombos(sw, file, last, sw.aggregators));
    }
  }

  lemma EpsSingle(sw: Sweep, file: Json, x: Json)
    ensures EpsCombos(sw, file, [x]) == AggregatorCombos(sw, file, x, sw.aggregators)
  {
    assert [x][..0] == [];
  }

  /** The tasks of eps value `xs[q]` form one contiguous block, after
      those of the entries before it and before those of the entries after it. */
  lemma EpsSplit(sw: Sweep, file: Json, xs: seq<Json>, q: nat)
    requires q < |xs|
    ensures EpsCombos(sw, file, xs)
         == EpsCombos(sw, file, xs[..q]) + AggregatorCombos(sw, file, xs[q], sw.aggregators) + EpsCombos(sw, file, xs[q + 1..])
  {
    var before := xs[..q];
    var after := xs[q + 1..];
    SplitAt(xs, q);
    EpsAppend(sw, file, before, [xs[q]] + after);
    EpsAppend(sw, file, [xs[q]], after);
    EpsSingle(sw, file, xs[q]);
    ConcatAssoc(EpsCombos(sw, file, before), EpsCombos(sw, file, [xs[q]]), EpsCombos(sw, file, after));
  }

  /** Running the problem file loop over `xs + ys` emits what running it over `xs`, then over `ys`, emits. */
  lemma {:induction false} FileAppend(sw: Sweep, xs: seq<Json>, ys: seq<Json>)
    ensures FileCombos(sw, xs + ys) == FileCombos(sw, xs) + FileCombos(sw, ys)
    decreases |ys|
  {
    if ys == [] {
      assert xs + ys == xs;
    } else {
      var init := ys[..|ys| - 1];
      var last := ys[|ys| - 1];
      FileAppend(sw, xs, init);
      assert (xs + ys)[..|xs + ys| - 1] == xs + init;
      assert (xs + ys)[|xs + ys| - 1] == last;
      ConcatAssoc(FileCombos(sw, xs), FileCombos(sw, init), EpsCombos(sw, last, sw.epsValues));
    }
  }

  lemma FileSingle(sw: Sweep, x: Json)
    ensures FileCombos(sw, [x]) == EpsCombos(sw, x, sw.epsValues)
  {
    assert [x][..0] == [];
  }

  /** The tasks of problem file `xs[q]` form one contiguous block, after
      those of the entries before it and before those of the entries after it. */
  lemma FileSplit(sw: Sweep, xs: seq<Json>, q: nat)
    requires q < |xs|
    ensures FileCombos(sw, xs)
         == FileCombos(sw, xs[..q]) + EpsCombos(sw, xs[q], sw.epsValues) + FileCombos(sw, xs[q + 1..])
  {
    var before := xs[..q];
    var after := xs[q + 1..];
    SplitAt(xs, q);
    FileAppend(sw, before, [xs[q]] + after);
    FileAppend(sw, [xs[q]], after);
    FileSingle(sw, xs[q]);
    ConcatAssoc(FileCombos(sw, before), FileCombos(sw, [xs[q]]), FileCombos(sw, after));
  }

  /** The tasks of problem file `q` are the `PerFile` tasks from position
      `q * PerFile`: the expansion is grouped by file, in list order. */
  lemma FileOrder(sw: Sweep, q: nat)
    requires q < |sw.files|
    ensures q * PerFile(sw) + PerFile(sw) <= |Expand(sw)|
    ensures forall i :: q * PerFile(sw) <= i < q * PerFile(sw) + PerFile(sw) ==>
              Expand(sw)[i].filename == sw.files[q]
  {
    var file := sw.files[q];
    var before := FileCombos(sw, sw.files[..q]);
    var block := EpsCombos(sw, file, sw.epsValues);
    FileSplit(sw, sw.files, q);
    FileCount(sw, sw.files[..q]);
    EpsCount(sw, file, sw.epsValues);
    var lo := |before|;
    forall i | lo <= i < lo + |block|
      ensures Expand(sw)[i].filename == file
    {
      var c := block[i - lo];
      assert Combinations(sw)[i] == c;
      EpsMembers(sw, file, sw.epsValues, c);
    }
  }

  /** Within the tasks of one problem file, those of eps value `p` are the
      `PerEps` tasks from offset `p * PerEps`: grouped by eps, in list order. */
  lemma EpsOrder(sw: Sweep, file: Json, p: nat)
    requires p < |sw.epsValues|
    ensures p * PerEps(sw) + PerEps(sw) <= |EpsCombos(sw, file, sw.epsValues)|
    ensures forall j :: p * PerEps(sw) <= j < p * PerEps(sw) + PerEps(sw) ==>
              EpsCombos(sw, file, sw.epsValues)[j].file == file
              && EpsCombos(sw, file, sw.epsValues)[j].eps == sw.epsValues[p]
  {
    var eps := sw.epsValues[p];
    var before := EpsCombos(sw, file, sw.epsValues[..p]);
    var block := AggregatorCombos(sw, file, eps, sw.aggregators);
    EpsSplit(sw, file, sw.epsValues, p);
    EpsCount(sw, file, sw.epsValues[..p]);
    PairCount(sw, file, eps);
    var lo := |before|;
    forall j | lo <= j < lo + |block|
      ensures EpsCombos(sw, file, sw.epsValues)[j].file == file
      ensures EpsCombos(sw, file, sw.epsValues)[j].eps == eps
    {
      var c := block[j - lo];
      assert EpsCombos(sw, file, sw.epsValues)[j] == c;
      AggregatorMembers(sw, file, eps, sw.aggregators, c);
    }
  }
}
