/** The Python `RecommendationEvaluator`: accuracy against a ground truth
    (precision, recall, F1, NDCG@10), popularity tiers and ratios, artist
    and genre concentration, novelty, genre coverage, the clamped overall
    quality score and the history of evaluations. Recommendations are their
    item ids; the track metadata is a map from item id to what the
    evaluator reads of a track. `log2`, the cosine-based intra-list
    diversity and the current year are parameters. */
module Evaluation {
  import opened Common

  import opened TrackMetadata

  /** A ground-truth entry: an item id and an optional rating (default 1). */
  datatype Truth = Truth(itemId: string, rating: Option<real>)

  /** `track_info.get('popularity', 0)`. */
  function PopularityOf(meta: Metadata, id: string): real {
    InfoOf(meta, id).popularity.GetOr(0.0)
  }

  /** `track_info.get('artist', 'Unknown')`. */
  function ArtistOf(meta: Metadata, id: string): string {
    InfoOf(meta, id).artist.GetOr("Unknown")
  }

  /** The popularities of the recommended items, in order. */
  function Popularities(recs: seq<string>, meta: Metadata): (ps: seq<real>)
    ensures |ps| == |recs|
    ensures forall i :: 0 <= i < |recs| ==> ps[i] == PopularityOf(meta, recs[i])
  {
    Map(recs, (id: string) => PopularityOf(meta, id))
  }

  lemma MeanOrZeroBounds(xs: seq<real>, lo: real, hi: real)
    requires lo <= 0.0 <= hi
    requires forall x :: x in xs ==> lo <= x <= hi
    ensures lo <= MeanOrZero(xs) <= hi
  {
    if xs != [] {
      MeanBetween(xs, lo, hi);
    }
  }

  // ---------------------------------------------------------------------
  // Accuracy
  // ---------------------------------------------------------------------

  function TruthIds(gt: seq<Truth>): set<string> {
    set g | g in gt :: g.itemId
  }

  /** `2 * (p * r) / (p + r)`, or 0 when `p + r` is 0. */
  function F1(p: real, r: real): real {
    if p + r > 0.0 then 2.0 * (p * r) / (p + r) else 0.0
  }

  /** For a precision and a recall in [0,1] the F1 score lies in [0,1], and
      it is 1 exactly when both are. */
  lemma F1Bounds(p: real, r: real)
    requires 0.0 <= p <= 1.0 && 0.0 <= r <= 1.0
    ensures 0.0 <= F1(p, r) <= 1.0
    ensures F1(p, r) == 1.0 <==> p == 1.0 && r == 1.0
  {
    if p + r > 0.0 {
      F1Numerator(p, r);
      DivUnit(2.0 * (p * r), p + r);
    }
  }

  /** The numerator `2 * p * r` is at most the denominator `p + r`, and
      equal to it exactly for two perfect scores. */
  lemma F1Numerator(p: real, r: real)
    requires 0.0 <= p <= 1.0 && 0.0 <= r <= 1.0 && p + r > 0.0
    ensures 0.0 <= 2.0 * (p * r) <= p + r
    ensures 2.0 * (p * r) == p + r <==> p == 1.0 && r == 1.0
  {
    ProductUnit(p, r);
    var pr := p * r;
    assert 0.0 <= pr <= p && pr <= r;
    assert p < 1.0 && r > 0.0 ==> pr < r;
    assert r < 1.0 && p > 0.0 ==> pr < p;
    assert p == 1.0 && r == 1.0 ==> pr == 1.0;
    TwiceProduct(p, r, pr);
  }

  /** The linear half of the F1 bound, with the product `pr` named. */
  lemma TwiceProduct(p: real, r: real, pr: real)
    requires 0.0 <= p <= 1.0 && 0.0 <= r <= 1.0 && p + r > 0.0
    requires 0.0 <= pr <= p && pr <= r
    requires p < 1.0 && r > 0.0 ==> pr < r
    requires r < 1.0 && p > 0.0 ==> pr < p
    requires p == 1.0 && r == 1.0 ==> pr == 1.0
    ensures 0.0 <= 2.0 * pr <= p + r
    ensures 2.0 * pr == p + r <==> p == 1.0 && r == 1.0
  {
  }

  /** A product of two numbers in [0,1] is at most either, and below one
      that is multiplied by something less than 1. */
  lemma ProductUnit(p: real, r: real)
    requires 0.0 <= p <= 1.0 && 0.0 <= r <= 1.0
    ensures 0.0 <= p * r <= p && p * r <= r
    ensures p < 1.0 && r > 0.0 ==> p * r < r
    ensures r < 1.0 && p > 0.0 ==> p * r < p
    ensures p == 1.0 && r == 1.0 ==> p * r == 1.0
  {
    MulMonotone(p, 1.0, r);
    MulMonotone(r, 1.0, p);
    MulMonotone(0.0, p, r);
    assert r * p == p * r;
  }

  /** A quotient of a non-negative number by a larger one lies in [0,1],
      and is 1 exactly when the two are equal. */
  lemma DivUnit(x: real, s: real)
    requires 0.0 <= x <= s && s > 0.0
    ensures 0.0 <= x / s <= 1.0
    ensures x / s == 1.0 <==> x == s
  {
    var q := x / s;
    assert q * s == x;
    if q < 0.0 {
      MulMonotone(0.0, q, s);
      assert false;
    }
    if q > 1.0 {
      MulMonotone(q, 1.0, s);
      assert false;
    }
    if q == 1.0 {
      assert q * s == 1.0 * s == s;
    }
    if x == s {
      assert s * (1.0 / s) == 1.0;
      assert x / s == x * (1.0 / s);
    }
  }

  /** `_calculate_accuracy_metrics`: without ground truth only the four
      zero scores; otherwise the scores over the distinct ids and the
      counts they come from. */
  datatype Accuracy =
    | NoGroundTruth
    | Accuracy(precision: real, recall: real, f1: real, ndcg: real,
               truePositives: nat, recommendedCount: nat, groundTruthCount: nat)
  {
    /** `.get('f1', 0)`. */
    function F1Score(): real {
      if NoGroundTruth? then 0.0 else f1
    }
  }

  function AccuracyOf(recs: seq<string>, gt: seq<Truth>, ndcg: real): (a: Accuracy)
    ensures gt == [] <==> a.NoGroundTruth?
  {
    if gt == [] then NoGroundTruth
    else
      var r := Elems(recs);
      var g := TruthIds(gt);
      assert gt[0].itemId in g;
      var tp := |r * g|;
      var precision := if |r| > 0 then tp as real / |r| as real else 0.0;
      var recall := tp as real / |g| as real;
      Accuracy(precision, recall, F1(precision, recall), ndcg, tp, |r|, |g|)
  }

  /** Precision and recall lie in [0,1] and so does F1; a recommendation
      list whose distinct ids are exactly the ground truth's scores 1 on all
      three. */
  lemma AccuracyInUnit(recs: seq<string>, gt: seq<Truth>, ndcg: real)
    requires gt != []
    ensures var a := AccuracyOf(recs, gt, ndcg);
      0.0 <= a.precision <= 1.0 && 0.0 <= a.recall <= 1.0 && 0.0 <= a.f1 <= 1.0
      && a.truePositives <= a.recommendedCount && a.truePositives <= a.groundTruthCount
    ensures Elems(recs) == TruthIds(gt) ==>
      var a := AccuracyOf(recs, gt, ndcg);
      a.precision == 1.0 && a.recall == 1.0 && a.f1 == 1.0
  {
    var r := Elems(recs);
    var g := TruthIds(gt);
    assert gt[0].itemId in g;
    var tp := |r * g|;
    SubsetCard(r * g, r);
    SubsetCard(r * g, g);
    var a := AccuracyOf(recs, gt, ndcg);
    assert a.truePositives == tp && a.recommendedCount == |r| && a.groundTruthCount == |g|;
    if |r| > 0 {
      DivUnit(tp as real, |r| as real);
    }
    DivUnit(tp as real, |g| as real);
    F1Bounds(a.precision, a.recall);
    if r == g {
      assert r * g == r;
    }
  }

  // ---------------------------------------------------------------------
  // NDCG
  // ---------------------------------------------------------------------

  /** `log2` is positive from 2 on, so every discount can be divided by. */
  ghost predicate IsLog2(log2: real -> real) {
    forall x :: x >= 2.0 ==> log2(x) > 0.0
  }

  /** `{gt['item_id']: gt.get('rating', 1) for gt in ground_truth}`: a later
      entry for the same id overwrites an earlier one. */
  function Relevance(gt: seq<Truth>): (m: map<string, real>)
    ensures m.Keys == TruthIds(gt)
  {
    if gt == [] then map[]
    else
      var g := gt[|gt| - 1];
      var m := Relevance(gt[..|gt| - 1])[g.itemId := g.rating.GetOr(1.0)];
      assert m.Keys == TruthIds(gt) by {
        assert gt == gt[..|gt| - 1] + [g];
        forall id ensures id in TruthIds(gt) <==> id in TruthIds(gt[..|gt| - 1]) || id == g.itemId {
          if id in TruthIds(gt) {
            var t :| t in gt && t.itemId == id;
            var i :| 0 <= i < |gt| && gt[i] == t;
            if i < |gt| - 1 {
              assert gt[..|gt| - 1][i] == t;
            }
          }
        }
      }
      m
  }

  /** The distinct elements of `s` in the order of their first occurrence:
      the key order of a Python `dict` or `Counter` built from `s`. */
  function Dedup<T(==,!new)>(s: seq<T>): (r: seq<T>)
    ensures Distinct(r)
    ensures forall x :: x in r <==> x in s
  {
    if s == [] then []
    else
      var r := Dedup(s[..|s| - 1]);
      assert forall x :: x in s <==> x in s[..|s| - 1] || x == s[|s| - 1] by {
        assert s == s[..|s| - 1] + [s[|s| - 1]];
      }
      if s[|s| - 1] in r then r else r + [s[|s| - 1]]
  }

  function TruthIdList(gt: seq<Truth>): (ids: seq<string>)
    ensures |ids| == |gt|
    ensures forall i :: 0 <= i < |gt| ==> ids[i] == gt[i].itemId
  {
    Map(gt, (t: Truth) => t.itemId)
  }

  /** The relevance values of the ground-truth dict, one per distinct id. */
  function RelevanceValues(gt: seq<Truth>): seq<real> {
    var m := Relevance(gt);
    var ids := Dedup(TruthIdList(gt));
    Map(ids, (id: string) => if id in m then m[id] else 1.0)
  }

  /** `sorted(ground_truth_ids.values(), reverse=True)[:k]`. */
  function IdealRelevances(gt: seq<Truth>, k: nat): seq<real> {
    Take(SortDesc(RelevanceValues(gt), IdR), k)
  }

  /** The relevance of each of the first `k` recommendations, 0 for an id
      outside the ground truth. */
  function RankedRelevances(recs: seq<string>, gt: seq<Truth>, k: nat): (rels: seq<real>)
    ensures |rels| == MinI(k, |recs|)
    ensures forall i :: 0 <= i < |rels| ==>
      rels[i] == if recs[i] in Relevance(gt) then Relevance(gt)[recs[i]] else 0.0
  {
    var m := Relevance(gt);
    Map(Take(recs, k), (id: string) => if id in m then m[id] else 0.0)
  }

  /** The discount `rel / log2(i + 2)` of the relevance at position `i`. */
  function Gain(rel: real, i: nat, log2: real -> real): real
    requires IsLog2(log2)
  {
    rel / log2((i + 2) as real)
  }

  /** The DCG: discounted relevances, only positive ones counting. */
  function Dcg(rels: seq<real>, log2: real -> real): real
    requires IsLog2(log2)
  {
    if rels == [] then 0.0
    else
      var i := |rels| - 1;
      Dcg(rels[..i], log2) + (if rels[i] > 0.0 then Gain(rels[i], i, log2) else 0.0)
  }

  /** The IDCG: discounted relevances, every one counting. */
  function Idcg(rels: seq<real>, log2: real -> real): real
    requires IsLog2(log2)
  {
    if rels == [] then 0.0
    else
      var i := |rels| - 1;
      Idcg(rels[..i], log2) + Gain(rels[i], i, log2)
  }

  /** NDCG@k: the DCG of the ranking over the ideal DCG, 0 when the ideal is
      not positive. */
  function Ndcg(recs: seq<string>, gt: seq<Truth>, k: nat, log2: real -> real): real
    requires IsLog2(log2)
  {
    var idcg := Idcg(IdealRelevances(gt, k), log2);
    if idcg > 0.0 then Dcg(RankedRelevances(recs, gt, k), log2) / idcg else 0.0
  }

  lemma GainPositive(rel: real, i: nat, log2: real -> real)
    requires IsLog2(log2) && rel > 0.0
    ensures Gain(rel, i, log2) > 0.0
  {
    assert log2((i + 2) as real) > 0.0;
  }

  lemma {:induction false} DcgNonNeg(rels: seq<real>, log2: real -> real)
    requires IsLog2(log2)
    ensures Dcg(rels, log2) >= 0.0
  {
    if rels != [] {
      var i := |rels| - 1;
      DcgNonNeg(rels[..i], log2);
      if rels[i] > 0.0 {
        GainPositive(rels[i], i, log2);
      }
    }
  }

  /** With only positive relevances the DCG and the ideal DCG agree, and a
      non-empty list has a positive one. */
  lemma {:induction false} DcgPositive(rels: seq<real>, log2: real -> real)
    requires IsLog2(log2)
    requires forall x :: x in rels ==> x > 0.0
    ensures Dcg(rels, log2) == Idcg(rels, log2)
    ensures rels != [] ==> Idcg(rels, log2) > 0.0
  {
    if rels != [] {
      var i := |rels| - 1;
      assert forall x :: x in rels[..i] ==> x in rels;
      DcgPositive(rels[..i], log2);
      assert rels[i] in rels;
      GainPositive(rels[i], i, log2);
      DcgNonNeg(rels[..i], log2);
    }
  }

  /** Positions whose relevance is not positive add nothing to the DCG. */
  lemma {:induction false} DcgIgnoresTail(rels: seq<real>, m: nat, log2: real -> real)
    requires IsLog2(log2) && m <= |rels|
    requires forall i :: m <= i < |rels| ==> rels[i] <= 0.0
    ensures Dcg(rels, log2) == Dcg(rels[..m], log2)
  {
    if |rels| > m {
      var i := |rels| - 1;
      assert rels[..i][..m] == rels[..m];
      DcgIgnoresTail(rels[..i], m, log2);
    } else {
      assert rels[..m] == rels;
    }
  }

  /** NDCG is never negative; with no ground truth it is 0. */
  lemma NdcgNonNeg(recs: seq<string>, gt: seq<Truth>, k: nat, log2: real -> real)
    requires IsLog2(log2)
    ensures Ndcg(recs, gt, k, log2) >= 0.0
    ensures gt == [] ==> Ndcg(recs, gt, k, log2) == 0.0
  {
    var rels := RankedRelevances(recs, gt, k);
    var ideal := IdealRelevances(gt, k);
    DcgNonNeg(rels, log2);
    var dcg := Dcg(rels, log2);
    var idcg := Idcg(ideal, log2);
    if idcg > 0.0 {
      Quotient(dcg, idcg);
    }
    if gt == [] {
      assert TruthIdList(gt) == [];
      assert RelevanceValues(gt) == [];
      assert ideal == [];
    }
  }

  /** A perfect ranking scores 1: when the relevances of the first `k`
      recommendations start with the ideal ones, all positive, and the
      rest of those `k` carry none, NDCG is exactly 1. */
  lemma NdcgPerfect(recs: seq<string>, gt: seq<Truth>, k: nat, log2: real -> real)
    requires IsLog2(log2) && k > 0 && gt != []
    requires forall x :: x in RelevanceValues(gt) ==> x > 0.0
    requires var rels := RankedRelevances(recs, gt, k); var ideal := IdealRelevances(gt, k);
      |ideal| <= |rels| && rels[..|ideal|] == ideal
      && forall i :: |ideal| <= i < |rels| ==> rels[i] <= 0.0
    ensures Ndcg(recs, gt, k, log2) == 1.0
  {
    var rels := RankedRelevances(recs, gt, k);
    var ideal := IdealRelevances(gt, k);
    IdealPositive(gt, k);
    DcgIgnoresTail(rels, |ideal|, log2);
    DcgPositive(ideal, log2);
    var d := Idcg(ideal, log2);
    assert Dcg(rels, log2) == d;
    Quotient(d, d);
  }

  /** The ideal list of a non-empty ground truth is non-empty, and holds
      only positive values when every relevance is positive. */
  lemma IdealPositive(gt: seq<Truth>, k: nat)
    requires k > 0 && gt != []
    requires forall x :: x in RelevanceValues(gt) ==> x > 0.0
    ensures IdealRelevances(gt, k) != []
    ensures forall x :: x in IdealRelevances(gt, k) ==> x > 0.0
  {
    var values := RelevanceValues(gt);
    var ids := Dedup(TruthIdList(gt));
    assert TruthIdList(gt)[0] in ids;
    assert |values| == |ids| > 0;
    var sorted := SortDesc(values, IdR);
    SortDescElems(values, IdR);
    var ideal := Take(sorted, k);
    assert |ideal| == MinI(k, |sorted|) >= 1;
    forall x | x in ideal ensures x > 0.0 {
      var i :| 0 <= i < |ideal| && ideal[i] == x;
      assert sorted[i] in sorted;
    }
  }

  /** `_calculate_ndcg`: the DCG accumulated over the first `k`
      recommendations, over the ideal DCG. */
  method CalculateNdcg(recs: seq<string>, gt: seq<Truth>, k: nat, log2: real -> real) returns (ndcg: real)
    requires IsLog2(log2)
    ensures ndcg == Ndcg(recs, gt, k, log2)
  {
    var relevance := Relevance(gt);
    var top := Take(recs, k);
    ghost var rels := RankedRelevances(recs, gt, k);
    var dcg := 0.0;
    var i := 0;
    while i < |top|
      invariant 0 <= i <= |top| == |rels|
      invariant dcg == Dcg(rels[..i], log2)
    {
      var rel := if top[i] in relevance then relevance[top[i]] else 0.0;
      assert rel == rels[i];
      DcgSnoc(rels, i, log2);
      if rel > 0.0 {
        dcg := dcg + rel / log2((i + 2) as real);
      }
      i := i + 1;
    }
    assert rels[..|top|] == rels;
    var idcg := Idcg(IdealRelevances(gt, k), log2);
    ndcg := if idcg > 0.0 then dcg / idcg else 0.0;
  }

  /** One more position adds its gain to the DCG when its relevance is
      positive. */
  lemma DcgSnoc(rels: seq<real>, i: nat, log2: real -> real)
    requires IsLog2(log2) && i < |rels|
    ensures Dcg(rels[..i + 1], log2) == Dcg(rels[..i], log2) + (if rels[i] > 0.0 then Gain(rels[i], i, log2) else 0.0)
  {
    assert rels[..i + 1][..i] == rels[..i];
  }

  /** The ten positions `_calculate_accuracy_metrics` looks at. */
  const NDCG_K: nat := 10

  /** `_calculate_accuracy_metrics` with its NDCG@10. */
  method CalculateAccuracyMetrics(recs: seq<string>, gt: seq<Truth>, log2: real -> real) returns (a: Accuracy)
    requires IsLog2(log2)
    ensures a == AccuracyOf(recs, gt, Ndcg(recs, gt, NDCG_K, log2))
    ensures gt == [] ==> a == NoGroundTruth
    ensures a.Accuracy? ==> a.ndcg >= 0.0
  {
    if gt == [] {
      return NoGroundTruth;
    }
    var ndcg := CalculateNdcg(recs, gt, NDCG_K, log2);
    NdcgNonNeg(recs, gt, NDCG_K, log2);
    a := AccuracyOf(recs, gt, ndcg);
  }

  // ---------------------------------------------------------------------
  // Gini coefficient
  // ---------------------------------------------------------------------

  function Neg(x: real): real { -x }

  /** `sorted(values)`: ascending order. */
  function SortAsc(xs: seq<real>): (r: seq<real>)
    ensures |r| == |xs| && multiset(r) == multiset(xs)
    ensures forall i, j :: 0 <= i < j < |r| ==> r[i] <= r[j]
  {
    var r := SortDesc(xs, Neg);
    assert SortedDesc(r, Neg);
    r
  }

  /** `sum((top - i) * y for i, y in enumerate(ys))`. */
  function RankWeighted(ys: seq<real>, top: int): real {
    if ys == [] then 0.0
    else
      var i := |ys| - 1;
      RankWeighted(ys[..i], top) + (top - i) as real * ys[i]
  }

  /** `_calculate_gini_coefficient` as written, on the sorted values: the
      weights run from `n + 1` down to 2, and the sum divides the whole
      expression rather than only the weighted term. A zero sum raises a
      division by zero, which is caught and yields 0. */
  function GiniOfSortedAsWritten(asc: seq<real>): real {
    var n := |asc|;
    var total := SumOf(asc, IdR);
    if n <= 1 || n as real * total == 0.0 then 0.0
    else ((n + 1) as real - 2.0 * RankWeighted(asc, n + 1)) / (n as real * total)
  }

  function GiniAsWritten(values: seq<real>): real {
    GiniOfSortedAsWritten(SortAsc(values))
  }

  /** The Gini coefficient the evaluator means, on the sorted values
      `y_1 <= .. <= y_n` with sum `S`: `(n + 1 - 2 * sum((n + 1 - i) * y_i) / S) / n`,
      and 0 for fewer than two values or a zero sum. */
  function GiniOfSorted(asc: seq<real>): real {
    var n := |asc|;
    var total := SumOf(asc, IdR);
    if n <= 1 || total == 0.0 then 0.0
    else ((n + 1) as real - 2.0 * RankWeighted(asc, n) / total) / n as real
  }

  function GiniCoefficient(values: seq<real>): real {
    GiniOfSorted(SortAsc(values))
  }

  /** Sorting a sequence of one repeated value leaves it as it is. */
  lemma SortAscConstant(xs: seq<real>, c: real)
    requires forall x :: x in xs ==> x == c
    ensures SortAsc(xs) == xs
  {
    var r := SortAsc(xs);
    forall i | 0 <= i < |r| ensures r[i] == xs[i] {
      assert r[i] in multiset(r);
      assert r[i] in xs;
      assert xs[i] in xs;
    }
  }

  /** The weighted sum of a constant sequence. */
  lemma {:induction false} RankWeightedConstant(ys: seq<real>, top: int, c: real)
    requires forall y :: y in ys ==> y == c
    ensures 2.0 * RankWeighted(ys, top) == c * (|ys| * (2 * top - |ys| + 1)) as real
  {
    if ys != [] {
      var i := |ys| - 1;
      assert forall y :: y in ys[..i] ==> y in ys;
      RankWeightedConstant(ys[..i], top, c);
      assert ys[i] in ys;
      var m := i * (2 * top - i + 1);
      assert |ys| * (2 * top - |ys| + 1) == m + 2 * (top - i);
      assert c * (m + 2 * (top - i)) as real == c * m as real + 2.0 * ((top - i) as real * c);
    }
  }

  lemma {:induction false} SumOfConstant(ys: seq<real>, c: real)
    requires forall y :: y in ys ==> y == c
    ensures SumOf(ys, IdR) == c * |ys| as real
  {
    if ys != [] {
      var i := |ys| - 1;
      assert forall y :: y in ys[..i] ==> y in ys;
      SumOfConstant(ys[..i], c);
      assert ys[i] in ys;
    }
  }

  /** Counts spread evenly (every value the same `c >= 1`, as a `Counter`
      gives): the formula as written is negative, `-1.4375` for four equal
      counts of 1, where the coefficient of an even spread is 0. */
  lemma GiniAsWrittenOnEvenCounts(values: seq<real>, c: real)
    requires c >= 1.0 && |values| >= 2
    requires forall x :: x in values ==> x == c
    ensures GiniAsWritten(values) < 0.0
    ensures GiniCoefficient(values) == 0.0
    ensures |values| == 4 && c == 1.0 ==> GiniAsWritten(values) == -1.4375
  {
    SortAscConstant(values, c);
    SortedAsWrittenEven(values, c);
    GiniEven(values, c);
  }

  lemma SortedAsWrittenEven(values: seq<real>, c: real)
    requires c >= 1.0 && |values| >= 2
    requires forall x :: x in values ==> x == c
    ensures GiniOfSortedAsWritten(values) < 0.0
    ensures |values| == 4 && c == 1.0 ==> GiniOfSortedAsWritten(values) == -1.4375
  {
    var n := |values|;
    var rw := RankWeighted(values, n + 1);
    var total := SumOf(values, IdR);
    RankWeightedConstant(values, n + 1, c);
    SumOfConstant(values, c);
    assert 2.0 * rw == c * (n * (2 * (n + 1) - n + 1)) as real;
    assert total == c * n as real;
    EvenAsWrittenArith(n, c, rw, total);
  }

  lemma EvenAsWrittenArith(n: nat, c: real, r: real, total: real)
    requires n >= 2 && c >= 1.0
    requires 2.0 * r == c * (n * (2 * (n + 1) - n + 1)) as real
    requires total == c * n as real
    ensures n as real * total != 0.0
    ensures ((n + 1) as real - 2.0 * r) / (n as real * total) < 0.0
    ensures n == 4 && c == 1.0 ==> ((n + 1) as real - 2.0 * r) / (n as real * total) == -1.4375
  {
    var N := n as real;
    assert (n * (n + 3)) as real == N * (N + 3.0);
    assert N * (N + 3.0) >= 10.0 by {
      MulMonotone(2.0, N, N + 3.0);
    }
    MulMonotone(1.0, c, N * (N + 3.0));
    var d := N * total;
    assert d > 0.0 by {
      MulMonotone(0.0, c, N);
      MulMonotone(0.0, N, total);
    }
    var num := (N + 1.0) - 2.0 * r;
    assert num < 0.0;
    var q := num / d;
    assert q * d == num;
    if q >= 0.0 {
      MulMonotone(0.0, q, d);
    }
  }

  /** An even distribution of a positive value has coefficient 0. */
  lemma GiniEven(values: seq<real>, c: real)
    requires c > 0.0
    requires forall x :: x in values ==> x == c
    ensures GiniCoefficient(values) == 0.0
  {
    SortAscConstant(values, c);
    SortedGiniEven(values, c);
  }

  lemma SortedGiniEven(values: seq<real>, c: real)
    requires c > 0.0
    requires forall x :: x in values ==> x == c
    ensures GiniOfSorted(values) == 0.0
  {
    var n := |values|;
    if n > 1 {
      var rw := RankWeighted(values, n);
      var total := SumOf(values, IdR);
      RankWeightedConstant(values, n, c);
      SumOfConstant(values, c);
      assert 2.0 * rw == c * (n * (2 * n - n + 1)) as real;
      assert total == c * n as real;
      EvenArith(n, c, rw, total);
    }
  }

  lemma EvenArith(n: nat, c: real, r: real, total: real)
    requires n >= 2 && c > 0.0
    requires 2.0 * r == c * (n * (2 * n - n + 1)) as real
    requires total == c * n as real
    ensures total != 0.0
    ensures ((n + 1) as real - 2.0 * r / total) / n as real == 0.0
  {
    var N := n as real;
    assert (n * (n + 1)) as real == N * (N + 1.0);
    assert total > 0.0 by {
      MulMonotone(0.0, c, N);
    }
    assert 2.0 * r == (N + 1.0) * total;
    DivExact(2.0 * r, N + 1.0, total);
  }

  /** `RankWeighted` with one more unit of weight on every element. */
  lemma {:induction false} RankWeightedShift(ys: seq<real>, top: int)
    ensures RankWeighted(ys, top + 1) == RankWeighted(ys, top) + SumOf(ys, IdR)
  {
    if ys != [] {
      RankWeightedShift(ys[..|ys| - 1], top);
    }
  }

  /** `RankWeighted` of a sequence with an element put in front. */
  lemma {:induction false} RankWeightedCons(a: real, ys: seq<real>, top: int)
    ensures RankWeighted([a] + ys, top) == top as real * a + RankWeighted(ys, top - 1)
  {
    if ys == [] {
      assert ([a] + ys)[..0] == [];
    } else {
      var i := |ys| - 1;
      assert ([a] + ys)[..|ys|] == [a] + ys[..i];
      RankWeightedCons(a, ys[..i], top);
    }
  }

  lemma {:induction false} SumOfCons(a: real, ys: seq<real>)
    ensures SumOf([a] + ys, IdR) == a + SumOf(ys, IdR)
  {
    SumOfAppend([a], ys, IdR);
    assert [a][..0] == [];
  }

  /** The rank-weighted sum of an ascending sequence is at most half of
      `n + 1` times its sum: weights that fall as values rise. */
  lemma {:induction false} RankWeightedAscending(ys: seq<real>)
    requires forall i, j :: 0 <= i < j < |ys| ==> ys[i] <= ys[j]
    ensures 2.0 * RankWeighted(ys, |ys|) <= (|ys| + 1) as real * SumOf(ys, IdR)
    decreases |ys|
  {
    var n := |ys|;
    if n == 1 {
      RankWeightedSingle(ys);
    } else if n >= 2 {
      var mid := ys[1..n - 1];
      assert forall i, j :: 0 <= i < j < |mid| ==> mid[i] <= mid[j] by {
        forall i, j | 0 <= i < j < |mid| ensures mid[i] <= mid[j] {
          assert mid[i] == ys[i + 1] && mid[j] == ys[j + 1];
        }
      }
      RankWeightedAscending(mid);
      RankWeightedAscendingStep(ys);
    }
  }

  lemma RankWeightedSingle(ys: seq<real>)
    requires |ys| == 1
    ensures 2.0 * RankWeighted(ys, |ys|) <= (|ys| + 1) as real * SumOf(ys, IdR)
  {
    assert ys[..0] == [];
    assert SumOf(ys, IdR) == IdR(ys[0]) == ys[0];
    assert RankWeighted(ys, 1) == ys[0];
  }

  /** The step of `RankWeightedAscending`: the bound for the middle gives
      the bound for the whole. */
  lemma RankWeightedAscendingStep(ys: seq<real>)
    requires |ys| >= 2 && ys[0] <= ys[|ys| - 1]
    requires var mid := ys[1..|ys| - 1];
      2.0 * RankWeighted(mid, |mid|) <= (|mid| + 1) as real * SumOf(mid, IdR)
    ensures 2.0 * RankWeighted(ys, |ys|) <= (|ys| + 1) as real * SumOf(ys, IdR)
  {
    var n := |ys|;
    var mid := ys[1..n - 1];
    RankWeightedEnds(ys);
    AscendingStep(n, ys[0], ys[n - 1], SumOf(mid, IdR), RankWeighted(mid, n - 2),
                  RankWeighted(ys, n), SumOf(ys, IdR));
  }

  /** `SumOf` of a sequence of two or more, split into its first element,
      its middle and its last element. */
  lemma SumOfEnds(ys: seq<real>)
    requires |ys| >= 2
    ensures SumOf(ys, IdR) == ys[0] + SumOf(ys[1..|ys| - 1], IdR) + ys[|ys| - 1]
  {
    var n := |ys|;
    var a, b := ys[0], ys[n - 1];
    var mid := ys[1..n - 1];
    assert ys == [a] + (mid + [b]);
    SumOfCons(a, mid + [b]);
    SumOfAppend(mid, [b], IdR);
    assert [b][..0] == [];
    assert SumOf([b], IdR) == b;
  }

  /** `RankWeighted` and `SumOf` of a sequence of two or more, split into
      its first element, its middle and its last element. */
  lemma RankWeightedEnds(ys: seq<real>)
    requires |ys| >= 2
    ensures var n := |ys|; var mid := ys[1..n - 1];
      && RankWeighted(ys, n) == n as real * ys[0] + RankWeighted(mid, n - 2) + SumOf(mid, IdR) + ys[n - 1]
      && SumOf(ys, IdR) == ys[0] + SumOf(mid, IdR) + ys[n - 1]
  {
    var n := |ys|;
    var a, b := ys[0], ys[n - 1];
    var mid := ys[1..n - 1];
    var tail := mid + [b];
    assert ys == [a] + tail;
    RankWeightedCons(a, tail, n);
    assert tail[..|tail| - 1] == mid && tail[|tail| - 1] == b;
    assert (n - 1 - (|tail| - 1)) as real == 1.0;
    assert RankWeighted(tail, n - 1) == RankWeighted(mid, n - 1) + b;
    RankWeightedShift(mid, n - 2);
    SumOfEnds(ys);
  }

  /** The arithmetic of one step of `RankWeightedAscending`: stripping the
      smallest and the largest value. */
  lemma AscendingStep(n: nat, a: real, b: real, sm: real, rm: real, rw: real, total: real)
    requires n >= 2 && a <= b
    requires 2.0 * rm <= (n - 2 + 1) as real * sm
    requires rw == n as real * a + rm + sm + b
    requires total == a + sm + b
    ensures 2.0 * rw <= (n + 1) as real * total
  {
    var N := n as real;
    assert (n - 2 + 1) as real == N - 1.0;
    assert (n + 1) as real == N + 1.0;
    MulMonotone(a, b, N - 1.0);
    assert (N + 1.0) * (a + sm + b) - 2.0 * (N * a + rm + sm + b)
        == (N - 1.0) * b - (N - 1.0) * a + ((N - 1.0) * sm - 2.0 * rm);
  }

  /** Every weight of a sequence no longer than `top` is at least 1. */
  lemma {:induction false} RankWeightedAtLeastSum(ys: seq<real>, top: int)
    requires |ys| <= top
    requires forall y :: y in ys ==> y >= 0.0
    ensures RankWeighted(ys, top) >= SumOf(ys, IdR)
  {
    if ys != [] {
      var i := |ys| - 1;
      assert forall y :: y in ys[..i] ==> y in ys;
      RankWeightedAtLeastSum(ys[..i], top);
      assert ys[i] in ys;
      var w, y := (top - i) as real, ys[i];
      assert RankWeighted(ys, top) == RankWeighted(ys[..i], top) + w * y;
      assert SumOf(ys, IdR) == SumOf(ys[..i], IdR) + y;
      MulMonotone(1.0, w, y);
      assert w * y >= y;
    }
  }

  /** For non-negative values the coefficient lies in [0, (n - 1) / n]: 0
      for an even spread, approaching 1 as one value takes everything. */
  lemma GiniBounds(values: seq<real>)
    requires forall x :: x in values ==> x >= 0.0
    ensures 0.0 <= GiniCoefficient(values) < 1.0
    ensures |values| > 1 ==> GiniCoefficient(values) <= (|values| - 1) as real / |values| as real
  {
    var asc := SortAsc(values);
    SortDescElems(values, Neg);
    assert forall x :: x in asc ==> x in values;
    SortedGiniBounds(asc);
  }

  lemma SortedGiniBounds(asc: seq<real>)
    requires forall i, j :: 0 <= i < j < |asc| ==> asc[i] <= asc[j]
    requires forall x :: x in asc ==> x >= 0.0
    ensures 0.0 <= GiniOfSorted(asc) < 1.0
    ensures |asc| > 1 ==> GiniOfSorted(asc) <= (|asc| - 1) as real / |asc| as real
  {
    var n := |asc|;
    var total := SumOf(asc, IdR);
    if n > 1 {
      if total != 0.0 {
        SumOfNonNeg(asc, IdR);
        RankWeightedAtLeastSum(asc, n);
        RankWeightedAscending(asc);
        GiniArith(n as real, total, RankWeighted(asc, n));
      } else {
        assert (n - 1) as real / n as real >= 0.0 by {
          Quotient((n - 1) as real, n as real);
        }
      }
    }
  }

  /** Bounds on a product carry over to the quotient. */
  lemma QuotientBetween(x: real, d: real, lo: real, hi: real)
    requires d > 0.0 && lo * d <= x <= hi * d
    ensures lo <= x / d <= hi
  {
    var q := x / d;
    assert q * d == x;
    if q < lo {
      MulMonotone(lo, q, d);
    }
    if q > hi {
      MulMonotone(q, hi, d);
    }
  }

  /** `(n - 1) / n` lies in [0, 1) once n >= 2. */
  lemma ShareBelowOne(n: real)
    requires n >= 2.0
    ensures 0.0 <= (n - 1.0) / n < 1.0
  {
    var h := (n - 1.0) / n;
    assert h * n == n - 1.0;
    QuotientBetween(n - 1.0, n, 0.0, 1.0);
    if h >= 1.0 {
      MulMonotone(h, 1.0, n);
    }
  }

  /** The arithmetic of `SortedGiniBounds`. */
  lemma GiniArith(n: real, total: real, r: real)
    requires n >= 2.0 && total > 0.0
    requires total <= r && 2.0 * r <= (n + 1.0) * total
    ensures 0.0 <= ((n + 1.0) - 2.0 * r / total) / n <= (n - 1.0) / n < 1.0
  {
    QuotientBetween(2.0 * r, total, 2.0, n + 1.0);
    var q := 2.0 * r / total;
    assert 2.0 <= q <= n + 1.0;
    var h := (n - 1.0) / n;
    assert h * n == n - 1.0;
    QuotientBetween((n + 1.0) - q, n, 0.0, h);
    ShareBelowOne(n);
  }

  // ---------------------------------------------------------------------
  // Spread, popularity and release-year diversity
  // ---------------------------------------------------------------------

  /** `np.min`. */
  function MinOf(xs: seq<real>): (m: real)
    requires xs != []
    ensures m in xs
    ensures forall x :: x in xs ==> m <= x
  {
    if |xs| == 1 then xs[0]
    else
      var i := |xs| - 1;
      assert xs == xs[..i] + [xs[i]];
      MinR(MinOf(xs[..i]), xs[i])
  }

  /** `np.max`. */
  function MaxOf(xs: seq<real>): (m: real)
    requires xs != []
    ensures m in xs
    ensures forall x :: x in xs ==> x <= m
  {
    if |xs| == 1 then xs[0]
    else
      var i := |xs| - 1;
      assert xs == xs[..i] + [xs[i]];
      MaxR(MaxOf(xs[..i]), xs[i])
  }

  /** Mean, minimum, maximum and range of a non-empty list of values. */
  datatype Spread = Spread(mean: real, min: real, max: real, range: real)

  function SpreadOf(xs: seq<real>): (sp: Spread)
    requires xs != []
  {
    var lo := MinOf(xs);
    var hi := MaxOf(xs);
    Spread(Mean(xs), lo, hi, hi - lo)
  }

  /** The spread's minimum and maximum are values of the list that bound
      all of it, and the mean and the range sit between them. */
  lemma SpreadBounds(xs: seq<real>)
    requires xs != []
    ensures var sp := SpreadOf(xs);
      sp.min in xs && sp.max in xs
      && (forall x :: x in xs ==> sp.min <= x <= sp.max)
      && sp.min <= sp.mean <= sp.max && 0.0 <= sp.range == sp.max - sp.min
  {
    MeanBetween(xs, MinOf(xs), MaxOf(xs));
  }

  function IsNichePopularity(p: real): bool { p < 30.0 }

  function IsMainstreamPopularity(p: real): bool { p > 70.0 }

  /** `_calculate_popularity_diversity`, without the standard deviation and
      the coefficient of variation. */
  datatype PopularityDiversity = PopularityDiversity(spread: Spread, nicheRatio: real, mainstreamRatio: real)

  function PopularityDiversityOf(recs: seq<string>, meta: Metadata): (d: Option<PopularityDiversity>)
    ensures d.None? <==> recs == []
  {
    var ps := Popularities(recs, meta);
    if ps == [] then None
    else
      var n := |ps| as real;
      Some(PopularityDiversity(SpreadOf(ps),
                               CountOf(ps, IsNichePopularity) as real / n,
                               CountOf(ps, IsMainstreamPopularity) as real / n))
  }

  /** The niche and mainstream shares are proportions of disjoint groups of
      the recommendations, so neither is negative and together they are at
      most 1. */
  lemma PopularityDiversityBounds(recs: seq<string>, meta: Metadata)
    requires recs != []
    ensures var d := PopularityDiversityOf(recs, meta).value;
      0.0 <= d.nicheRatio && 0.0 <= d.mainstreamRatio && d.nicheRatio + d.mainstreamRatio <= 1.0
      && d.spread.min <= d.spread.mean <= d.spread.max && d.spread.range >= 0.0
  {
    var ps := Popularities(recs, meta);
    CountOfDisjoint(ps, IsNichePopularity, IsMainstreamPopularity);
    RatioPair(CountOf(ps, IsNichePopularity), CountOf(ps, IsMainstreamPopularity), |ps|);
    SpreadBounds(ps);
  }

  /** The release years that could be read, in recommendation order; dates
      that are missing or fail to parse are skipped. */
  function ReleaseYears(recs: seq<string>, meta: Metadata): (ys: seq<int>)
    ensures |ys| <= |recs|
  {
    if recs == [] then []
    else
      var i := |recs| - 1;
      ReleaseYears(recs[..i], meta)
        + match InfoOf(meta, recs[i]).release
          case ReleaseYear(y) => [y]
          case _ => []
  }

  function AsReal(y: int): real { y as real }

  /** `_calculate_temporal_diversity`, without the standard deviation: the
      spread of the years and the shares released in the last three years
      and more than ten years before `currentYear`. */
  datatype TemporalDiversity = TemporalDiversity(spread: Spread, recentRatio: real, vintageRatio: real)

  function IsRecent(currentYear: int): int -> bool {
    y => y >= currentYear - 3
  }

  function IsVintage(currentYear: int): int -> bool {
    y => y < currentYear - 10
  }

  function TemporalDiversityOf(recs: seq<string>, meta: Metadata, currentYear: int): (d: Option<TemporalDiversity>)
    ensures d.None? <==> ReleaseYears(recs, meta) == []
  {
    var ys := ReleaseYears(recs, meta);
    if ys == [] then None
    else
      var n := |ys| as real;
      Some(TemporalDiversity(SpreadOf(Map(ys, AsReal)),
                             CountOf(ys, IsRecent(currentYear)) as real / n,
                             CountOf(ys, IsVintage(currentYear)) as real / n))
  }

  /** Recent and vintage releases are disjoint shares of the dated
      recommendations. */
  lemma TemporalDiversityBounds(recs: seq<string>, meta: Metadata, currentYear: int)
    requires ReleaseYears(recs, meta) != []
    ensures var d := TemporalDiversityOf(recs, meta, currentYear).value;
      0.0 <= d.recentRatio && 0.0 <= d.vintageRatio && d.recentRatio + d.vintageRatio <= 1.0
      && d.spread.min <= d.spread.mean <= d.spread.max && d.spread.range >= 0.0
  {
    var ys := ReleaseYears(recs, meta);
    CountOfDisjoint(ys, IsRecent(currentYear), IsVintage(currentYear));
    RatioPair(CountOf(ys, IsRecent(currentYear)), CountOf(ys, IsVintage(currentYear)), |ys|);
    SpreadBounds(Map(ys, AsReal));
  }

  // ---------------------------------------------------------------------
  // Artist and genre concentration
  // ---------------------------------------------------------------------

  /** The artist of each recommendation, "Unknown" when missing. */
  function Artists(recs: seq<string>, meta: Metadata): (as_: seq<string>)
    ensures |as_| == |recs|
    ensures forall i :: 0 <= i < |recs| ==> as_[i] == ArtistOf(meta, recs[i])
  {
    Map(recs, (id: string) => ArtistOf(meta, id))
  }

  function Equals(x: string): string -> bool {
    y => y == x
  }

  /** `list(Counter(xs).values())`: the number of occurrences of each
      distinct element, in order of first occurrence. */
  function Counts(xs: seq<string>): (cs: seq<real>)
    ensures |cs| == |Dedup(xs)|
  {
    Map(Dedup(xs), (x: string) => CountOf(xs, Equals(x)) as real)
  }

  lemma CountsNonNeg(xs: seq<string>)
    ensures forall c :: c in Counts(xs) ==> c >= 0.0
  {
  }

  /** `_calculate_artist_diversity`. */
  datatype ArtistDiversity = ArtistDiversity(uniqueArtists: nat, totalTracks: nat, ratio: real, gini: real)

  function ArtistDiversityOf(recs: seq<string>, meta: Metadata): ArtistDiversity {
    var artists := Artists(recs, meta);
    var unique := |Elems(artists)|;
    var total := |artists|;
    ArtistDiversity(unique, total, if total > 0 then unique as real / total as real else 0.0,
                    GiniCoefficient(Counts(artists)))
  }

  /** The diversity ratio is a proportion, and it is 1 exactly when the
      list is non-empty and no artist appears twice; the concentration is
      a Gini coefficient in [0, 1). */
  lemma ArtistDiversityBounds(recs: seq<string>, meta: Metadata)
    ensures var d := ArtistDiversityOf(recs, meta);
      0.0 <= d.ratio <= 1.0 && 0.0 <= d.gini < 1.0
      && (d.ratio == 1.0 <==> recs != [] && Distinct(Artists(recs, meta)))
  {
    var artists := Artists(recs, meta);
    ElemsCard(artists);
    DistinctIffElemsCard(artists);
    CountsNonNeg(artists);
    GiniBounds(Counts(artists));
    if |artists| > 0 {
      var u := |Elems(artists)| as real;
      var n := |artists| as real;
      RatioOfCounts(|Elems(artists)|, |artists|);
    }
  }

  /** With no artist repeated, the pipeline's concentration is the
      corrected coefficient of an even spread, 0; the formula as written
      in the source gives a negative value for the same counts, -1.4375
      for four recommendations by four different artists. */
  lemma ArtistConcentrationAsWritten(recs: seq<string>, meta: Metadata)
    requires |recs| >= 2 && Distinct(Artists(recs, meta))
    ensures GiniAsWritten(Counts(Artists(recs, meta))) < 0.0
    ensures ArtistDiversityOf(recs, meta).gini == 0.0
    ensures |recs| == 4 ==> GiniAsWritten(Counts(Artists(recs, meta))) == -1.4375
  {
    var artists := Artists(recs, meta);
    CountsOfDistinct(artists);
    GiniAsWrittenOnEvenCounts(Counts(artists), 1.0);
  }

  /** Every element of a list without repeats is counted once. */
  lemma CountsOfDistinct(xs: seq<string>)
    requires Distinct(xs)
    ensures |Counts(xs)| == |xs|
    ensures forall c :: c in Counts(xs) ==> c == 1.0
  {
    DedupOfDistinct(xs);
    forall c | c in Counts(xs) ensures c == 1.0 {
      var i :| 0 <= i < |Counts(xs)| && Counts(xs)[i] == c;
      CountOfDistinct(xs, xs[i]);
    }
  }

  lemma {:induction false} DedupOfDistinct(s: seq<string>)
    requires Distinct(s)
    ensures Dedup(s) == s
  {
    if s != [] {
      var t := s[..|s| - 1];
      assert Distinct(t);
      DedupOfDistinct(t);
      assert s[|s| - 1] !in t;
      assert s == t + [s[|s| - 1]];
    }
  }

  lemma {:induction false} CountOfDistinct(xs: seq<string>, x: string)
    requires Distinct(xs) && x in xs
    ensures CountOf(xs, Equals(x)) == 1
  {
    var t := xs[..|xs| - 1];
    assert Distinct(t);
    if xs[|xs| - 1] == x {
      CountOfAbsent(t, x);
    } else {
      assert x in t by {
        var i :| 0 <= i < |xs| && xs[i] == x;
        assert t[i] == x;
      }
      CountOfDistinct(t, x);
    }
  }

  lemma {:induction false} CountOfAbsent(xs: seq<string>, x: string)
    requires x !in xs
    ensures CountOf(xs, Equals(x)) == 0
  {
    if xs != [] {
      var t := xs[..|xs| - 1];
      assert forall y :: y in t ==> y in xs;
      CountOfAbsent(t, x);
    }
  }

  /** The genres of each recommendation, one after another: the
      `all_genres.extend(genres)` of `_calculate_bias_metrics`. */
  function GenreMentions(recs: seq<string>, meta: Metadata): seq<string> {
    if recs == [] then []
    else GenreMentions(recs[..|recs| - 1], meta) + InfoOf(meta, recs[|recs| - 1]).genres
  }

  /** The set of genres of the recommended items. */
  function RecommendedGenres(recs: seq<string>, meta: Metadata): set<string> {
    set id, g | id in recs && g in InfoOf(meta, id).genres :: g
  }

  /** The set of genres of every track in the metadata. */
  function AllGenres(meta: Metadata): set<string> {
    set id, g | id in meta && g in meta[id].genres :: g
  }

  // ---------------------------------------------------------------------
  // Novelty
  // ---------------------------------------------------------------------

  /** `(100 - popularity) / 100`. */
  function PopularityNovelty(p: real): real {
    (100.0 - p) / 100.0
  }

  /** A date's novelty: missing dates are skipped, unreadable ones count
      0.5, and a year counts `max(0, 1 - years_old / 50)`. */
  function ReleaseNovelty(d: ReleaseDate, currentYear: int): Option<real> {
    match d
    case NoDate => None
    case Unparseable => Some(0.5)
    case ReleaseYear(y) => Some(MaxR(0.0, 1.0 - (currentYear - y) as real / 50.0))
  }

  function ReleaseNovelties(recs: seq<string>, meta: Metadata, currentYear: int): seq<real> {
    if recs == [] then []
    else
      var i := |recs| - 1;
      ReleaseNovelties(recs[..i], meta, currentYear)
        + match ReleaseNovelty(InfoOf(meta, recs[i]).release, currentYear)
          case Some(v) => [v]
          case None => []
  }

  /** The artists named (present and non-empty) by the recommended items. */
  function NamedArtists(recs: seq<string>, meta: Metadata): set<string> {
    set id | id in recs && InfoOf(meta, id).artist.Some? && InfoOf(meta, id).artist.value != ""
      :: InfoOf(meta, id).artist.value
  }

  /** `_calculate_novelty_metrics`. */
  datatype Novelty = Novelty(uniqueArtists: nat, popularityNovelty: real, releaseNovelty: real, combined: real)

  function NoveltyOf(recs: seq<string>, meta: Metadata, currentYear: int): Novelty {
    var pop := MeanOrZero(Map(Popularities(recs, meta), PopularityNovelty));
    var rel := MeanOrZero(ReleaseNovelties(recs, meta, currentYear));
    Novelty(|NamedArtists(recs, meta)|, pop, rel, (pop + rel) / 2.0)
  }

  /** Popularities on Spotify's 0..100 scale. */
  predicate PopularitiesInScale(recs: seq<string>, meta: Metadata) {
    forall id :: id in recs ==> 0.0 <= PopularityOf(meta, id) <= 100.0
  }

  /** No recommended track is released after `currentYear`. */
  predicate ReleasedBy(recs: seq<string>, meta: Metadata, currentYear: int) {
    forall id :: id in recs && InfoOf(meta, id).release.ReleaseYear? ==>
      InfoOf(meta, id).release.year <= currentYear
  }

  lemma {:induction false} ReleaseNoveltiesInUnit(recs: seq<string>, meta: Metadata, currentYear: int)
    requires ReleasedBy(recs, meta, currentYear)
    ensures forall v :: v in ReleaseNovelties(recs, meta, currentYear) ==> 0.0 <= v <= 1.0
  {
    if recs != [] {
      var i := |recs| - 1;
      assert ReleasedBy(recs[..i], meta, currentYear) by {
        assert forall id :: id in recs[..i] ==> id in recs;
      }
      ReleaseNoveltiesInUnit(recs[..i], meta, currentYear);
      assert recs[i] in recs;
    }
  }

  /** With popularities on the 0..100 scale and no release in the future,
      every novelty score is in [0,1]. */
  lemma NoveltyBounds(recs: seq<string>, meta: Metadata, currentYear: int)
    requires PopularitiesInScale(recs, meta) && ReleasedBy(recs, meta, currentYear)
    ensures var nv := NoveltyOf(recs, meta, currentYear);
      0.0 <= nv.popularityNovelty <= 1.0 && 0.0 <= nv.releaseNovelty <= 1.0 && 0.0 <= nv.combined <= 1.0
  {
    var ps := Popularities(recs, meta);
    var ns := Map(ps, PopularityNovelty);
    forall v | v in ns ensures 0.0 <= v <= 1.0 {
      var i :| 0 <= i < |ns| && ns[i] == v;
      assert recs[i] in recs;
    }
    MeanOrZeroBounds(ns, 0.0, 1.0);
    ReleaseNoveltiesInUnit(recs, meta, currentYear);
    MeanOrZeroBounds(ReleaseNovelties(recs, meta, currentYear), 0.0, 1.0);
  }

  // ---------------------------------------------------------------------
  // Coverage
  // ---------------------------------------------------------------------

  datatype Tier = Niche | Emerging | Popular | Mainstream

  /** The popularity tiers: below 30, below 60, below 80, the rest. */
  function TierOf(p: real): Tier {
    if p < 30.0 then Niche else if p < 60.0 then Emerging else if p < 80.0 then Popular else Mainstream
  }

  function InTier(t: Tier): real -> bool {
    p => TierOf(p) == t
  }

  datatype TierShares = TierShares(niche: real, emerging: real, popular: real, mainstream: real)

  /** A tier's count divided by the number of recommendations, when there
      are any. */
  function Share(count: nat, total: nat): real {
    if total > 0 then count as real / total as real else count as real
  }

  function TierFractions(pops: seq<real>): TierShares {
    var n := |pops|;
    TierShares(Share(CountOf(pops, InTier(Niche)), n), Share(CountOf(pops, InTier(Emerging)), n),
               Share(CountOf(pops, InTier(Popular)), n), Share(CountOf(pops, InTier(Mainstream)), n))
  }

  /** Every popularity falls in exactly one tier. */
  lemma {:induction false} TierCountsTotal(pops: seq<real>)
    ensures CountOf(pops, InTier(Niche)) + CountOf(pops, InTier(Emerging))
          + CountOf(pops, InTier(Popular)) + CountOf(pops, InTier(Mainstream)) == |pops|
  {
    if pops != [] {
      TierCountsTotal(pops[..|pops| - 1]);
    }
  }

  /** The tier shares of a non-empty list are proportions summing to 1;
      with no recommendations every share is 0. */
  lemma TierFractionsSum(pops: seq<real>)
    ensures var t := TierFractions(pops);
      0.0 <= t.niche && 0.0 <= t.emerging && 0.0 <= t.popular && 0.0 <= t.mainstream
    ensures pops != [] ==> var t := TierFractions(pops);
      t.niche + t.emerging + t.popular + t.mainstream == 1.0
    ensures pops == [] ==> TierFractions(pops) == TierShares(0.0, 0.0, 0.0, 0.0)
  {
    TierCountsTotal(pops);
    var n := |pops|;
    if n > 0 {
      var a := CountOf(pops, InTier(Niche));
      var b := CountOf(pops, InTier(Emerging));
      var c := CountOf(pops, InTier(Popular));
      var d := CountOf(pops, InTier(Mainstream));
      SharesSum(a, b, c, d, n);
    }
  }

  lemma SharesSum(a: nat, b: nat, c: nat, d: nat, n: nat)
    requires n > 0 && a + b + c + d == n
    ensures a as real / n as real + b as real / n as real + c as real / n as real + d as real / n as real == 1.0
    ensures 0.0 <= a as real / n as real && 0.0 <= b as real / n as real
    ensures 0.0 <= c as real / n as real && 0.0 <= d as real / n as real
  {
    var N := n as real;
    DivAdd(a as real, b as real, N);
    DivAdd((a + b) as real, c as real, N);
    DivAdd((a + b + c) as real, d as real, N);
    DivExact(N, 1.0, N);
    RatioPair(a, 0, n);
    RatioPair(b, 0, n);
    RatioPair(c, 0, n);
    RatioPair(d, 0, n);
  }

  /** The tier-counting loop of `_calculate_coverage_metrics`. */
  method PopularityTierCoverage(pops: seq<real>) returns (shares: TierShares)
    ensures shares == TierFractions(pops)
  {
    var niche, emerging, popular, mainstream := 0, 0, 0, 0;
    var i := 0;
    while i < |pops|
      invariant 0 <= i <= |pops|
      invariant niche == CountOf(pops[..i], InTier(Niche))
      invariant emerging == CountOf(pops[..i], InTier(Emerging))
      invariant popular == CountOf(pops[..i], InTier(Popular))
      invariant mainstream == CountOf(pops[..i], InTier(Mainstream))
    {
      assert pops[..i + 1][..i] == pops[..i];
      var p := pops[i];
      if p < 30.0 {
        niche := niche + 1;
      } else if p < 60.0 {
        emerging := emerging + 1;
      } else if p < 80.0 {
        popular := popular + 1;
      } else {
        mainstream := mainstream + 1;
      }
      i := i + 1;
    }
    assert pops[..|pops|] == pops;
    var total := |pops|;
    shares := TierShares(Share(niche, total), Share(emerging, total), Share(popular, total), Share(mainstream, total));
  }

  /** The recommended genres are among the genres of the metadata. */
  lemma RecommendedGenresCovered(recs: seq<string>, meta: Metadata)
    ensures RecommendedGenres(recs, meta) <= AllGenres(meta)
  {
    forall g | g in RecommendedGenres(recs, meta) ensures g in AllGenres(meta) {
      var id :| id in recs && g in InfoOf(meta, id).genres;
      assert id in meta;
    }
  }

  /** A subset as large as its superset is the whole of it. */
  lemma SubsetCardEqual<T>(a: set<T>, b: set<T>)
    requires a <= b && |a| == |b|
    ensures a == b
  {
    if a != b {
      var x :| x in b && x !in a;
      SubsetCard(a, b - {x});
    }
  }

  /** `_calculate_coverage_metrics`. */
  datatype Coverage = Coverage(genreCoverage: real, coveredGenres: nat, totalGenres: nat, tiers: TierShares)

  function CoverageOf(recs: seq<string>, meta: Metadata): Coverage {
    var covered := RecommendedGenres(recs, meta);
    var all := AllGenres(meta);
    Coverage(if all != {} then |covered| as real / |all| as real else 0.0, |covered|, |all|,
             TierFractions(Popularities(recs, meta)))
  }

  /** Genre coverage is a proportion, 1 exactly when the recommendations
      reach every genre of the metadata (and there is one). */
  lemma CoverageBounds(recs: seq<string>, meta: Metadata)
    ensures var c := CoverageOf(recs, meta);
      0.0 <= c.genreCoverage <= 1.0 && c.coveredGenres <= c.totalGenres
      && (c.genreCoverage == 1.0 <==> AllGenres(meta) != {} && RecommendedGenres(recs, meta) == AllGenres(meta))
  {
    var covered := RecommendedGenres(recs, meta);
    var all := AllGenres(meta);
    RecommendedGenresCovered(recs, meta);
    SubsetCard(covered, all);
    if all != {} {
      RatioOfCounts(|covered|, |all|);
      if |covered| == |all| {
        SubsetCardEqual(covered, all);
      }
    }
  }

  // ---------------------------------------------------------------------
  // Bias
  // ---------------------------------------------------------------------

  /** `_calculate_bias_metrics`. */
  datatype Bias = Bias(popularityBias: real, artistConcentration: real, genreConcentration: real, overall: real)

  function BiasOf(recs: seq<string>, meta: Metadata): Bias {
    var pop := MeanOrZero(Popularities(recs, meta)) / 100.0;
    var artist := GiniCoefficient(Counts(Artists(recs, meta)));
    var genre := GiniCoefficient(Counts(GenreMentions(recs, meta)));
    Bias(pop, artist, genre, (pop + artist + genre) / 3.0)
  }

  /** With popularities on the 0..100 scale every bias score is in [0,1]. */
  lemma BiasBounds(recs: seq<string>, meta: Metadata)
    requires PopularitiesInScale(recs, meta)
    ensures var b := BiasOf(recs, meta);
      0.0 <= b.popularityBias <= 1.0 && 0.0 <= b.artistConcentration < 1.0
      && 0.0 <= b.genreConcentration < 1.0 && 0.0 <= b.overall <= 1.0
  {
    var ps := Popularities(recs, meta);
    forall p | p in ps ensures 0.0 <= p <= 100.0 {
      var i :| 0 <= i < |ps| && ps[i] == p;
      assert recs[i] in recs;
    }
    MeanOrZeroBounds(ps, 0.0, 100.0);
    CountsNonNeg(Artists(recs, meta));
    GiniBounds(Counts(Artists(recs, meta)));
    CountsNonNeg(GenreMentions(recs, meta));
    GiniBounds(Counts(GenreMentions(recs, meta)));
  }

  // ---------------------------------------------------------------------
  // Serendipity
  // ---------------------------------------------------------------------

  /** What `_calculate_serendipity_metrics` reads of the user profile: the
      preferred genres and the average popularity (default 50). */
  datatype UserProfile = UserProfile(preferredGenres: set<string>, avgPopularity: Option<real>)

  /** The Jaccard overlap of two genre sets, 0 when both are empty. */
  function GenreOverlap(a: set<string>, b: set<string>): real {
    if a + b != {} then |a * b| as real / |a + b| as real else 0.0
  }

  lemma GenreOverlapInUnit(a: set<string>, b: set<string>)
    ensures 0.0 <= GenreOverlap(a, b) <= 1.0
  {
    if a + b != {} {
      SubsetCard(a * b, a + b);
      RatioOfCounts(|a * b|, |a + b|);
    }
  }

  /** Unexpectedness (genre difference and popularity distance averaged)
      times the relevance `1 - unexpectedness / 2`. */
  function SerendipityOf(genres: set<string>, popularity: real, profile: UserProfile): real {
    var genreUnexpectedness := 1.0 - GenreOverlap(profile.preferredGenres, genres);
    var popularityDiff := AbsR(popularity - profile.avgPopularity.GetOr(50.0)) / 100.0;
    var unexpectedness := (genreUnexpectedness + popularityDiff) / 2.0;
    var relevance := 1.0 - unexpectedness * 0.5;
    unexpectedness * relevance
  }

  /** With both popularities on the 0..100 scale a track's serendipity is
      in [0, 0.5]. */
  lemma SerendipityBounds(genres: set<string>, popularity: real, profile: UserProfile)
    requires 0.0 <= popularity <= 100.0 && 0.0 <= profile.avgPopularity.GetOr(50.0) <= 100.0
    ensures 0.0 <= SerendipityOf(genres, popularity, profile) <= 0.5
  {
    GenreOverlapInUnit(profile.preferredGenres, genres);
    var u := (1.0 - GenreOverlap(profile.preferredGenres, genres)
              + AbsR(popularity - profile.avgPopularity.GetOr(50.0)) / 100.0) / 2.0;
    assert 0.0 <= u <= 1.0;
    SerendipityArith(u);
  }

  lemma SerendipityArith(u: real)
    requires 0.0 <= u <= 1.0
    ensures 0.0 <= u * (1.0 - u * 0.5) <= 0.5
  {
    var r := 1.0 - u * 0.5;
    MulMonotone(0.0, u, r);
    assert 0.0 <= u * r;
    MulMonotone(0.0, 1.0 - u, 1.0 - u);
    var v := (1.0 - u) * (1.0 - u);
    assert v >= 0.0;
    assert 0.5 - u * r == v * 0.5;
  }

  function AvgSerendipity(recs: seq<string>, meta: Metadata, profile: UserProfile): real {
    MeanOrZero(Map(recs, (id: string) =>
      SerendipityOf(Elems(InfoOf(meta, id).genres), PopularityOf(meta, id), profile)))
  }

  // ---------------------------------------------------------------------
  // Overall quality
  // ---------------------------------------------------------------------

  const ACCURACY_WEIGHT := 0.3
  const DIVERSITY_WEIGHT := 0.25
  const NOVELTY_WEIGHT := 0.2
  const COVERAGE_WEIGHT := 0.15
  const BIAS_PENALTY_WEIGHT := 0.1

  /** `_calculate_overall_quality_score`: the weighted accuracy, diversity,
      novelty and coverage less the weighted bias, clamped to [0,1]. */
  function QualityScore(accuracy: real, diversity: real, novelty: real, coverage: real, bias: real): real {
    Clamp01(accuracy * ACCURACY_WEIGHT + diversity * DIVERSITY_WEIGHT + novelty * NOVELTY_WEIGHT
            + coverage * COVERAGE_WEIGHT - bias * BIAS_PENALTY_WEIGHT)
  }

  /** The score is in [0,1], never falls when a component improves or the
      bias shrinks, and is 0.9 for perfect components with no bias. */
  lemma QualityScoreMonotone(a: real, d: real, n: real, c: real, b: real,
                             a': real, d': real, n': real, c': real, b': real)
    requires a <= a' && d <= d' && n <= n' && c <= c' && b' <= b
    ensures 0.0 <= QualityScore(a, d, n, c, b) <= QualityScore(a', d', n', c', b') <= 1.0
    ensures QualityScore(1.0, 1.0, 1.0, 1.0, 0.0) == 0.9
  {
  }

  // ---------------------------------------------------------------------
  // One evaluation and the history
  // ---------------------------------------------------------------------

  /** The record `evaluate_recommendations` builds and stores. */
  datatype EvaluationResult = EvaluationResult(
    accuracy: Accuracy, intraListDiversity: real, uniqueGenres: nat, artists: ArtistDiversity,
    popularity: Option<PopularityDiversity>, temporal: Option<TemporalDiversity>,
    novelty: Novelty, coverage: Coverage, bias: Bias, serendipity: Option<real>,
    overallQuality: real, timestamp: string)

  /** `profile` is None both for a missing and for an empty profile dict,
      since `if user_profile:` skips the serendipity metrics for either. */
  function EvaluationOf(recs: seq<string>, accuracy: Accuracy, meta: Metadata, profile: Option<UserProfile>,
                        ild: real, currentYear: int, timestamp: string): (e: EvaluationResult)
    ensures 0.0 <= e.overallQuality <= 1.0
  {
    var novelty := NoveltyOf(recs, meta, currentYear);
    var coverage := CoverageOf(recs, meta);
    var bias := BiasOf(recs, meta);
    var serendipity := match profile
      case Some(p) => Some(AvgSerendipity(recs, meta, p))
      case None => None;
    EvaluationResult(accuracy, ild, |RecommendedGenres(recs, meta)|, ArtistDiversityOf(recs, meta),
                     PopularityDiversityOf(recs, meta), TemporalDiversityOf(recs, meta, currentYear),
                     novelty, coverage, bias, serendipity,
                     QualityScore(accuracy.F1Score(), ild, novelty.combined, coverage.genreCoverage, bias.overall),
                     timestamp)
  }

  /** `get_evaluation_summary`, without the quality trend. */
  datatype EvaluationSummary = EvaluationSummary(
    count: nat, avgQuality: real, avgDiversity: real, avgNovelty: real, avgBias: real,
    latest: Option<EvaluationResult>)

  function Quality(e: EvaluationResult): real { e.overallQuality }
  function Diversity(e: EvaluationResult): real { e.intraListDiversity }
  function CombinedNovelty(e: EvaluationResult): real { e.novelty.combined }
  function OverallBias(e: EvaluationResult): real { e.bias.overall }

  function SummaryOf(recent: seq<EvaluationResult>): (s: EvaluationSummary)
    ensures s.count == |recent|
  {
    EvaluationSummary(|recent|, MeanOrZero(Map(recent, Quality)), MeanOrZero(Map(recent, Diversity)),
                      MeanOrZero(Map(recent, CombinedNovelty)), MeanOrZero(Map(recent, OverallBias)),
                      if recent == [] then None else Some(recent[|recent| - 1]))
  }

  /** `history[-n:]` keeps the last `n` entries for a positive `n` and all of
      them for 0. */
  lemma RecentWindow<T>(history: seq<T>, nRecent: int)
    ensures nRecent > 0 ==> PyFrom(history, -nRecent) == history[|history| - MinI(nRecent, |history|)..]
    ensures nRecent == 0 ==> PyFrom(history, -nRecent) == history
  {
  }

  /** The evaluator and its history of results. */
  class RecommendationEvaluator {
    var history: seq<EvaluationResult>

    /** Every stored overall quality score is in [0,1]. */
    ghost predicate Valid()
      reads this
    {
      forall e :: e in history ==> 0.0 <= e.overallQuality <= 1.0
    }

    constructor()
      ensures history == [] && Valid()
    {
      history := [];
    }

    /** `evaluate_recommendations`: computes every metric and appends the
        result to the history. The NDCG log, the intra-list diversity, the
        current year and the timestamp come from the caller. */
    method EvaluateRecommendations(recs: seq<string>, gt: seq<Truth>, meta: Metadata, profile: Option<UserProfile>,
                                   ild: real, log2: real -> real, currentYear: int, timestamp: string)
      returns (e: EvaluationResult)
      requires IsLog2(log2) && Valid()
      modifies this
      ensures e == EvaluationOf(recs, AccuracyOf(recs, gt, Ndcg(recs, gt, NDCG_K, log2)), meta, profile, ild,
                                currentYear, timestamp)
      ensures history == old(history) + [e] && Valid()
    {
      var accuracy := CalculateAccuracyMetrics(recs, gt, log2);
      e := EvaluationOf(recs, accuracy, meta, profile, ild, currentYear, timestamp);
      Store(e);
    }

    /** `self.evaluation_history.append(...)`. */
    method Store(e: EvaluationResult)
      requires Valid() && 0.0 <= e.overallQuality <= 1.0
      modifies this
      ensures history == old(history) + [e] && Valid()
    {
      history := history + [e];
    }

    /** `get_evaluation_summary`: nothing without history; otherwise the
        averages over `history[-nRecent:]` and its last entry. */
    function GetEvaluationSummary(nRecent: int): (s: Option<EvaluationSummary>)
      reads this
      ensures s.None? <==> history == []
      ensures s.Some? ==> s.value.count == |PyFrom(history, -nRecent)|
      ensures s.Some? && nRecent > 0 ==>
        s.value.count == MinI(nRecent, |history|) && s.value.latest == Some(history[|history| - 1])
      ensures s.Some? && nRecent == 0 ==> s.value.count == |history|
      ensures s.Some? && Valid() ==> 0.0 <= s.value.avgQuality <= 1.0
    {
      SummaryWindow(history, nRecent);
      if history == [] then None else Some(SummaryOf(PyFrom(history, -nRecent)))
    }
  }

  /** The summary of the window `history[-nRecent:]` of a non-empty
      history: how many entries it averages, which is the latest, and an
      average quality within [0,1] when every stored quality is. */
  lemma SummaryWindow(history: seq<EvaluationResult>, nRecent: int)
    ensures history != [] && nRecent > 0 ==>
      var s := SummaryOf(PyFrom(history, -nRecent));
      s.count == MinI(nRecent, |history|) && s.latest == Some(history[|history| - 1])
    ensures nRecent == 0 ==> PyFrom(history, -nRecent) == history
    ensures (forall e :: e in history ==> 0.0 <= e.overallQuality <= 1.0) ==>
      0.0 <= SummaryOf(PyFrom(history, -nRecent)).avgQuality <= 1.0
  {
    RecentWindow(history, nRecent);
    WindowQuality(history, nRecent);
  }

  lemma WindowQuality(history: seq<EvaluationResult>, nRecent: int)
    ensures (forall e :: e in history ==> 0.0 <= e.overallQuality <= 1.0) ==>
      0.0 <= SummaryOf(PyFrom(history, -nRecent)).avgQuality <= 1.0
  {
    if forall e :: e in history ==> 0.0 <= e.overallQuality <= 1.0 {
      var recent := PyFrom(history, -nRecent);
      var qs := Map(recent, Quality);
      PyFromIsSuffix(history, -nRecent);
      forall q | q in qs ensures 0.0 <= q <= 1.0 {
        var i :| 0 <= i < |recent| && qs[i] == q;
        assert recent[i] == history[PyBound(-nRecent, |history|) + i];
      }
      MeanOrZeroBounds(qs, 0.0, 1.0);
    }
  }
}
