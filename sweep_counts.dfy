/** How many tasks a sweep expands to. One weights value yields one task per
    alpha candidate of the aggregator's family; a Borda or Copeland
    aggregator keeps only the tie resolvers equal to `NoResolver` (every
    occurrence counts), any other aggregator keeps them all. */
module SweepCounts {
  import opened JsonValues
  import opened SweepSpec

  /** How many entries of `s` equal `x`. */
  function Occurrences(x: Json, s: seq<Json>): (n: nat)
    ensures n <= |s|
    ensures n == 0 <==> x !in s
    decreases |s|
  {
    if s == [] then 0
    else
      assert s == s[..|s| - 1] + [s[|s| - 1]];
      Occurrences(x, s[..|s| - 1]) + (if s[|s| - 1] == x then 1 else 0)
  }

  /** Tasks one weights value yields under `aggregator`. */
  function AlphaShare(sw: Sweep, aggregator: Json): nat {
    if BordaOrCopeland(aggregator) then |sw.alphaValuesNumbers|
    else if DefaultOrWeighted(aggregator) then |sw.alphaValuesLists|
    else 0
  }

  /** How many of the tie resolvers `rs` survive pruning under `aggregator`. */
  function Kept(aggregator: Json, rs: seq<Json>): nat
    decreases |rs|
  {
    if rs == [] then 0
    else Kept(aggregator, rs[..|rs| - 1]) + (if TieResolverPruned(aggregator, rs[|rs| - 1]) then 0 else 1)
  }

  /** Tasks one (file, eps, weights) triple yields under `aggregator`. */
  function AggregatorShare(sw: Sweep, aggregator: Json): nat {
    if BordaOrCopeland(aggregator) then Occurrences(NoResolver, sw.tieResolvers) * |sw.alphaValuesNumbers|
    else if DefaultOrWeighted(aggregator) then |sw.tieResolvers| * |sw.alphaValuesLists|
    else 0
  }

  /** Tasks one (file, eps, weights) triple yields over the aggregators `aggs`. */
  function ShareSum(sw: Sweep, aggs: seq<Json>): nat
    decreases |aggs|
  {
    if aggs == [] then 0
    else ShareSum(sw, aggs[..|aggs| - 1]) + AggregatorShare(sw, aggs[|aggs| - 1])
  }

  /** Tasks one (file, eps) pair yields. */
  function PerEps(sw: Sweep): nat {
    |sw.alphaWeights| * ShareSum(sw, sw.aggregators)
  }

  /** Tasks one problem file yields. */
  function PerFile(sw: Sweep): nat {
    |sw.epsValues| * PerEps(sw)
  }

  lemma {:induction false} NumberCount(file: Json, eps: Json, aggregator: Json, tieResolver: Json, weights: Json,
                                       numbers: seq<Json>)
    ensures |NumberCombos(file, eps, aggregator, tieResolver, weights, numbers)|
         == if BordaOrCopeland(aggregator) then |numbers| else 0
    decreases |numbers|
  {
    if numbers != [] {
      NumberCount(file, eps, aggregator, tieResolver, weights, numbers[..|numbers| - 1]);
    }
  }

  lemma {:induction false} ValuesCount(file: Json, eps: Json, aggregator: Json, tieResolver: Json, weights: Json,
                                       lists: seq<Json>)
    ensures |ValuesCombos(file, eps, aggregator, tieResolver, weights, lists)|
         == if DefaultOrWeighted(aggregator) then |lists| else 0
    decreases |lists|
  {
    if lists != [] {
      ValuesCount(file, eps, aggregator, tieResolver, weights, lists[..|lists| - 1]);
    }
  }

  /** One weights value yields `AlphaShare` tasks: the two aggregator
      families are disjoint, so at most one alpha loop emits. */
  lemma WeightCount(sw: Sweep, file: Json, eps: Json, aggregator: Json, tieResolver: Json, weights: Json)
    ensures |WeightCombos(sw, file, eps, aggregator, tieResolver, weights)| == AlphaShare(sw, aggregator)
  {
    NumberCount(file, eps, aggregator, tieResolver, weights, sw.alphaValuesNumbers);
    ValuesCount(file, eps, aggregator, tieResolver, weights, sw.alphaValuesLists);
  }

  lemma {:induction false} WeightsCount(sw: Sweep, file: Json, eps: Json, aggregator: Json, tieResolver: Json,
                                        ws: seq<Json>)
    ensures |WeightsCombos(sw, file, eps, aggregator, tieResolver, ws)| == |ws| * AlphaShare(sw, aggregator)
    decreases |ws|
  {
    if ws != [] {
      var init := ws[..|ws| - 1];
      WeightsCount(sw, file, eps, aggregator, tieResolver, init);
      WeightCount(sw, file, eps, aggregator, tieResolver, ws[|ws| - 1]);
      MulSucc(|init|, AlphaShare(sw, aggregator));
    }
  }

  /** A Borda or Copeland aggregator keeps every occurrence of `NoResolver`
      and nothing else; any other aggregator keeps every tie resolver. */
  lemma {:induction false} KeptCount(aggregator: Json, rs: seq<Json>)
    ensures Kept(aggregator, rs) == if BordaOrCopeland(aggregator) then Occurrences(NoResolver, rs) else |rs|
    decreases |rs|
  {
    if rs != [] {
      KeptCount(aggregator, rs[..|rs| - 1]);
    }
  }

  lemma {:induction false} TieCount(sw: Sweep, file: Json, eps: Json, aggregator: Json, rs: seq<Json>)
    ensures |TieCombos(sw, file, eps, aggregator, rs)|
         == Kept(aggregator, rs) * (|sw.alphaWeights| * AlphaShare(sw, aggregator))
    decreases |rs|
  {
    if rs != [] {
      var init := rs[..|rs| - 1];
      var tieResolver := rs[|rs| - 1];
      TieCount(sw, file, eps, aggregator, init);
      WeightsCount(sw, file, eps, aggregator, tieResolver, sw.alphaWeights);
      MulSucc(Kept(aggregator, init), |sw.alphaWeights| * AlphaShare(sw, aggregator));
    }
  }

  /** The aggregator's share is the number of kept tie resolvers times the
      number of alpha candidates of its family. */
  lemma ShareFactors(sw: Sweep, aggregator: Json)
    ensures AggregatorShare(sw, aggregator) == Kept(aggregator, sw.tieResolvers) * AlphaShare(sw, aggregator)
  {
    KeptCount(aggregator, sw.tieResolvers);
  }

  lemma {:induction false} AggregatorCount(sw: Sweep, file: Json, eps: Json, aggs: seq<Json>)
    ensures |AggregatorCombos(sw, file, eps, aggs)| == |sw.alphaWeights| * ShareSum(sw, aggs)
    decreases |aggs|
  {
    if aggs != [] {
      var init := aggs[..|aggs| - 1];
      var aggregator := aggs[|aggs| - 1];
      var rest := AggregatorCombos(sw, file, eps, init);
      var block := TieCombos(sw, file, eps, aggregator, sw.tieResolvers);
      assert AggregatorCombos(sw, file, eps, aggs) == rest + block;
      AggregatorCount(sw, file, eps, init);
      TieCount(sw, file, eps, aggregator, sw.tieResolvers);
      ShareFactors(sw, aggregator);
      assert ShareSum(sw, aggs) == ShareSum(sw, init) + AggregatorShare(sw, aggregator);
      SumStep(|rest + block|, |rest|, |block|, |sw.alphaWeights|, ShareSum(sw, init),
              AggregatorShare(sw, aggregator), Kept(aggregator, sw.tieResolvers), AlphaShare(sw, aggregator));
    }
  }

  lemma SumStep(total: nat, rest: nat, block: nat, w: nat, before: nat, share: nat, kept: nat, alpha: nat)
    requires total == rest + block && rest == w * before
    requires block == kept * (w * alpha) && share == kept * alpha
    ensures total == w * (before + share)
  {
    MulSwap(kept, w, alpha);
  }

  /** One (file, eps) pair yields `PerEps` tasks. */
  lemma PairCount(sw: Sweep, file: Json, eps: Json)
    ensures |AggregatorCombos(sw, file, eps, sw.aggregators)| == PerEps(sw)
  {
    AggregatorCount(sw, file, eps, sw.aggregators);
  }

  lemma {:induction false} EpsCount(sw: Sweep, file: Json, es: seq<Json>)
    ensures |EpsCombos(sw, file, es)| == |es| * PerEps(sw)
    decreases |es|
  {
    if es != [] {
      var init := es[..|es| - 1];
      EpsCount(sw, file, init);
      PairCount(sw, file, es[|es| - 1]);
      MulSucc(|init|, PerEps(sw));
    }
  }

  lemma {:induction false} FileCount(sw: Sweep, fs: seq<Json>)
    ensures |FileCombos(sw, fs)| == |fs| * PerFile(sw)
    decreases |fs|
  {
    if fs != [] {
      var init := fs[..|fs| - 1];
      FileCount(sw, init);
      EpsCount(sw, fs[|fs| - 1], sw.epsValues);
      MulSucc(|init|, PerFile(sw));
    }
  }

  /** The number of tasks is the product of the file, eps and weights counts
      with the sum of the aggregators' shares. */
  lemma ExpandCount(sw: Sweep)
    ensures |Expand(sw)|
         == |sw.files| * (|sw.epsValues| * (|sw.alphaWeights| * ShareSum(sw, sw.aggregators)))
  {
    FileCount(sw, sw.files);
  }

  lemma MulSucc(n: nat, k: nat)
    ensures (n + 1) * k == n * k + k
  {
  }

  lemma MulSwap(k: nat, w: nat, n: nat)
    ensures k * (w * n) == w * (k * n)
  {
  }
}
