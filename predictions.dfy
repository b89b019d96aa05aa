/** The older predictor (utils/predictions.ts): truncated-normal distributions over cycle and
    bleed lengths, a receptivity curve, and a double sum over both distributions. Dates are
    day numbers; `Math.exp` and `Math.sqrt` are parameters, `exp` assumed positive. */
module Predictions {
  import opened Numeric
  import opened Types
  import opened Sorting
  import CycleEngine

  ghost predicate Positive(exp: real -> real)
  {
    forall x :: exp(x) > 0.0
  }

  // ---------------------------------------------------------------------------------------
  // normalTruncated

  /** exp(-z^2 / 2) with z = u / sd: the unnormalised Gaussian weight of an offset u. */
  function Kernel(exp: real -> real, u: real, sd: real): real
    requires sd > 0.0
  {
    var z := u / sd;
    exp(-0.5 * z * z)
  }

  /** The raw weight of key x in normalTruncated(mean, sd, ...). */
  function GaussAt(exp: real -> real, mean: real, sd: real, x: int): real
    requires sd > 0.0
  {
    Kernel(exp, x as real - mean, sd)
  }

  /** The raw weights of the keys lo..hi, as the first loop of normalTruncated sets them. */
  function GaussWeights(exp: real -> real, mean: real, sd: real, lo: int, hi: int): (m: map<int, real>)
    requires sd > 0.0
    ensures forall x :: x in m <==> lo <= x <= hi
    ensures forall x :: x in m ==> m[x] == GaussAt(exp, mean, sd, x)
  {
    map x | lo <= x <= hi :: GaussAt(exp, mean, sd, x)
  }

  /** Every value divided by s. */
  function Rescaled(m: map<int, real>, s: real): map<int, real>
    requires s != 0.0
  {
    map x | x in m :: m[x] / s
  }

  /** A distribution on lo..hi: exactly those keys, positive values, summing to 1. */
  ghost predicate Distribution(m: map<int, real>, lo: int, hi: int)
  {
    (forall x :: x in m <==> lo <= x <= hi)
    && (forall x :: x in m ==> m[x] > 0.0)
    && SumRange(m, lo, hi) == 1.0
  }

  /** A distribution on lo..hi has every key of lo..hi. */
  lemma DistributionKeys(m: map<int, real>, lo: int, hi: int)
    requires Distribution(m, lo, hi)
    ensures forall x :: lo <= x <= hi ==> x in m
  { }

  /** Dividing positive weights on lo..hi by their sum gives a distribution. */
  lemma RescaledDistribution(m: map<int, real>, lo: int, hi: int)
    requires lo <= hi
    requires forall x :: x in m <==> lo <= x <= hi
    requires forall x :: x in m ==> m[x] > 0.0
    ensures SumRange(m, lo, hi) > 0.0
    ensures Distribution(Rescaled(m, SumRange(m, lo, hi)), lo, hi)
  {
    SumRangePositive(m, lo, hi);
    var s := SumRange(m, lo, hi);
    var n := Rescaled(m, s);
    SumRangeScaled(m, n, lo, hi, s);
    DivSelf(s);
    RescaledPositive(m, s);
  }

  /** Dividing positive values by a positive number keeps them positive. */
  lemma RescaledPositive(m: map<int, real>, s: real)
    requires s > 0.0
    requires forall x :: x in m ==> m[x] > 0.0
    ensures forall x :: x in Rescaled(m, s) ==> Rescaled(m, s)[x] > 0.0
  {
  }

  /** normalTruncated(mean, sd, lo, hi): the raw weights divided by their sum, a distribution
      on exactly lo..hi. */
  function TruncatedNormal(exp: real -> real, mean: real, sd: real, lo: int, hi: int): (m: map<int, real>)
    requires sd > 0.0 && Positive(exp)
    ensures lo <= hi ==> Distribution(m, lo, hi)
    ensures hi < lo ==> m == map[]
  {
    if hi < lo then map[]
    else
      var raw := GaussWeights(exp, mean, sd, lo, hi);
      RescaledDistribution(raw, lo, hi);
      Rescaled(raw, SumRange(raw, lo, hi))
  }

  /** The renormalising loop shared by normalTruncated and getCycleDistribution: divides
      every entry by `sum` in place, key by key. */
  method Renormalise(m: map<int, real>, lo: int, hi: int, sum: real) returns (n: map<int, real>)
    requires lo <= hi && sum != 0.0
    requires forall x :: x in m <==> lo <= x <= hi
    ensures n == Rescaled(m, sum)
  {
    n := m;
    var x := lo;
    while x <= hi
      invariant lo <= x <= hi + 1
      invariant forall k :: k in n <==> lo <= k <= hi
      invariant forall k :: lo <= k < x ==> n[k] == m[k] / sum
      invariant forall k :: x <= k <= hi ==> n[k] == m[k]
    {
      n := n[x := n[x] / sum];
      x := x + 1;
    }
  }

  /** The first loop of normalTruncated: the raw weights of lo..hi and their running sum. */
  method FillGauss(exp: real -> real, mean: real, sd: real, lo: int, hi: int)
    returns (dist: map<int, real>, sum: real)
    requires sd > 0.0 && lo <= hi
    ensures dist == GaussWeights(exp, mean, sd, lo, hi)
    ensures sum == SumRange(GaussWeights(exp, mean, sd, lo, hi), lo, hi)
  {
    ghost var raw := GaussWeights(exp, mean, sd, lo, hi);
    dist := map[];
    sum := 0.0;
    var x := lo;
    while x <= hi
      invariant lo <= x <= hi + 1
      invariant dist == GaussWeights(exp, mean, sd, lo, x - 1)
      invariant sum == SumRange(raw, lo, x - 1)
    {
      var prob := Kernel(exp, x as real - mean, sd);
      dist := dist[x := prob];
      sum := sum + prob;
      x := x + 1;
    }
  }

  /** normalTruncated: fills the raw weights in one loop, adding them up, then renormalises. */
  method NormalTruncated(exp: real -> real, mean: real, sd: real, lo: int, hi: int)
    returns (dist: map<int, real>)
    requires sd > 0.0 && Positive(exp)
    ensures dist == TruncatedNormal(exp, mean, sd, lo, hi)
  {
    if hi < lo {
      return map[];
    }
    var raw, sum := FillGauss(exp, mean, sd, lo, hi);
    SumRangePositive(raw, lo, hi);
    dist := Renormalise(raw, lo, hi, sum);
  }

  // ---------------------------------------------------------------------------------------
  // getCycleDistribution and getRuleDistribution

  /** The range of cycle lengths and of bleed lengths the predictor sums over. */
  const C_MIN: int := 24
  const C_MAX: int := 35
  const R_MIN: int := 2
  const R_MAX: int := 8

  /** The sort key of the ascending comparator `a.getTime() - b.getTime()`. */
  function Ascending(day: int): int
  {
    day
  }

  /** normalTruncated(28, 2.5, 24, 35): the cycle-length distribution without history. */
  function BaseCycle(exp: real -> real): (m: map<int, real>)
    requires Positive(exp)
    ensures Distribution(m, C_MIN, C_MAX)
  {
    TruncatedNormal(exp, 28.0, 2.5, C_MIN, C_MAX)
  }

  /** getRuleDistribution: normalTruncated(4.5, 1, 2, 8). */
  function RuleDistribution(exp: real -> real): (m: map<int, real>)
    requires Positive(exp)
    ensures Distribution(m, R_MIN, R_MAX)
  {
    TruncatedNormal(exp, 4.5, 1.0, R_MIN, R_MAX)
  }

  /** The weight of cycle length c in the two-observation case: its base probability times
      a Gaussian of width 1.5 around the one observed gap. */
  function GapAt(exp: real -> real, baseProb: real, delta: int, c: int): real
  {
    baseProb * Kernel(exp, (delta - c) as real, 1.5)
  }

  /** The gap weights of the lengths lo..hi, as the loop of the two-observation case sets
      them. */
  function GapWeights(exp: real -> real, base: map<int, real>, delta: int, lo: int, hi: int): (m: map<int, real>)
    requires forall c :: lo <= c <= hi ==> c in base
    ensures forall c :: c in m <==> lo <= c <= hi
    ensures forall c :: c in m ==> m[c] == GapAt(exp, base[c], delta, c)
  {
    map c | lo <= c <= hi :: GapAt(exp, base[c], delta, c)
  }

  /** The two-observation distribution: the gap weights renormalised. */
  function GapDistribution(exp: real -> real, base: map<int, real>, delta: int): (m: map<int, real>)
    requires Positive(exp) && Distribution(base, C_MIN, C_MAX)
    ensures Distribution(m, C_MIN, C_MAX)
  {
    var raw := GapWeights(exp, base, delta, C_MIN, C_MAX);
    GapWeightsPositive(exp, base, delta, C_MIN, C_MAX);
    Rescaled(raw, SumRange(raw, C_MIN, C_MAX))
  }

  /** Positive base probabilities give positive gap weights, and renormalising them gives a
      distribution. */
  lemma GapWeightsPositive(exp: real -> real, base: map<int, real>, delta: int, lo: int, hi: int)
    requires Positive(exp) && lo <= hi
    requires forall c :: lo <= c <= hi ==> c in base && base[c] > 0.0
    ensures forall c :: c in GapWeights(exp, base, delta, lo, hi) ==> GapWeights(exp, base, delta, lo, hi)[c] > 0.0
    ensures SumRange(GapWeights(exp, base, delta, lo, hi), lo, hi) > 0.0
    ensures var raw := GapWeights(exp, base, delta, lo, hi);
      Distribution(Rescaled(raw, SumRange(raw, lo, hi)), lo, hi)
  {
    forall c | lo <= c <= hi ensures GapAt(exp, base[c], delta, c) > 0.0 {
      MulPositive(base[c], Kernel(exp, (delta - c) as real, 1.5));
    }
    RescaledDistribution(GapWeights(exp, base, delta, lo, hi), lo, hi);
  }

  /** The gaps between consecutive entries. */
  function Deltas(s: seq<int>): seq<int>
  {
    if |s| <= 1 then [] else seq(|s| - 1, i requires 0 <= i < |s| - 1 => s[i + 1] - s[i])
  }

  /** The mean of the gaps, `reduce((a, b) => a + b, 0) / length`. */
  function Mean(d: seq<int>): real
    requires |d| > 0
  {
    SumInts(d) as real / |d| as real
  }

  /** The squared deviations `Math.pow(val - mean, 2)` of the gaps. */
  function SquaredDeviations(d: seq<int>, mean: real): seq<real>
  {
    seq(|d|, i requires 0 <= i < |d| => (d[i] as real - mean) * (d[i] as real - mean))
  }

  /** The population variance of the gaps. */
  function Variance(d: seq<int>): real
    requires |d| > 0
  {
    Sum(SquaredDeviations(d, Mean(d))) / |d| as real
  }

  /** getCycleDistribution on the observed day numbers: the base distribution for fewer than
      two days; for two, a reweighting around the gap between them; for three or more, a
      truncated normal fitted to the gaps between consecutive days in ascending order. */
  function CycleDistribution(fechas: seq<int>, exp: real -> real, sqrt: real -> real): (m: map<int, real>)
    requires Positive(exp)
    ensures Distribution(m, C_MIN, C_MAX)
  {
    if |fechas| <= 1 then BaseCycle(exp)
    else if |fechas| == 2 then GapDistribution(exp, BaseCycle(exp), Deltas(SortBy(fechas, Ascending))[0])
    else SpreadDistribution(Deltas(SortBy(fechas, Ascending)), exp, sqrt)
  }

  /** A truncated normal at the mean gap whose width is the standard deviation of the gaps,
      but at least 1.5. */
  function SpreadDistribution(deltas: seq<int>, exp: real -> real, sqrt: real -> real): (m: map<int, real>)
    requires Positive(exp) && |deltas| > 0
    ensures Distribution(m, C_MIN, C_MAX)
  {
    TruncatedNormal(exp, Mean(deltas), Max(sqrt(Variance(deltas)), 1.5), C_MIN, C_MAX)
  }

  /** The gaps of a sequence add up to its last entry minus its first. */
  lemma {:induction false} DeltasTelescope(s: seq<int>)
    requires |s| >= 1
    ensures SumInts(Deltas(s)) == s[|s| - 1] - s[0]
  {
    if |s| > 1 {
      var init := s[..|s| - 1];
      DeltasTelescope(init);
      var d := Deltas(s);
      assert d[..|d| - 1] == Deltas(init);
    }
  }

  /** The gaps of an ascending sequence are never negative. */
  lemma DeltasNonNegative(s: seq<int>)
    requires SortedBy(s, Ascending)
    ensures forall i :: 0 <= i < |Deltas(s)| ==> Deltas(s)[i] >= 0
  {
    forall i | 0 <= i < |Deltas(s)| ensures Deltas(s)[i] >= 0 {
      assert Ascending(s[i]) <= Ascending(s[i + 1]);
    }
  }

  /** The mean gap is the span from the first to the last day divided by the number of gaps. */
  lemma MeanGap(sorted: seq<int>)
    requires |sorted| >= 2
    ensures Mean(Deltas(sorted)) == (sorted[|sorted| - 1] - sorted[0]) as real / (|sorted| - 1) as real
  {
    DeltasTelescope(sorted);
  }

  /** Two ascending integer sequences with the same elements start with the same element. */
  lemma SortedHeads(a: seq<int>, b: seq<int>)
    requires SortedBy(a, Ascending) && SortedBy(b, Ascending)
    requires multiset(a) == multiset(b) && a != [] && b != []
    ensures a[0] == b[0]
  {
    assert a[0] in multiset(b) && b[0] in multiset(a);
    var i :| 0 <= i < |b| && b[i] == a[0];
    var j :| 0 <= j < |a| && a[j] == b[0];
    assert Ascending(b[0]) <= Ascending(b[i]) && Ascending(a[0]) <= Ascending(a[j]);
  }

  /** Two ascending integer sequences with the same elements are equal. */
  lemma {:induction false} SortedUnique(a: seq<int>, b: seq<int>)
    requires SortedBy(a, Ascending) && SortedBy(b, Ascending)
    requires multiset(a) == multiset(b)
    ensures a == b
    decreases |a|
  {
    assert |b| == |multiset(b)| == |a|;
    if a != [] {
      SortedHeads(a, b);
      var ta, tb := a[1..], b[1..];
      assert a == [a[0]] + ta && b == [b[0]] + tb;
      assert multiset(ta) == multiset(a) - multiset{a[0]};
      assert multiset(tb) == multiset(b) - multiset{b[0]};
      SortedUnique(ta, tb);
    }
  }

  /** The cycle distribution depends only on which days were observed, not on the order in
      which they are listed. */
  lemma CycleDistributionOrderFree(f: seq<int>, g: seq<int>, exp: real -> real, sqrt: real -> real)
    requires Positive(exp) && multiset(f) == multiset(g)
    ensures CycleDistribution(f, exp, sqrt) == CycleDistribution(g, exp, sqrt)
  {
    assert |f| == |multiset(f)| == |g|;
    SortedUnique(SortBy(f, Ascending), SortBy(g, Ascending));
  }

  /** The loop of the two-observation case over the lengths lo..hi: the gap weights and
      their running sum. */
  method FillGap(exp: real -> real, base: map<int, real>, delta: int, lo: int, hi: int)
    returns (dist: map<int, real>, sum: real)
    requires lo <= hi
    requires forall c :: lo <= c <= hi ==> c in base
    ensures dist == GapWeights(exp, base, delta, lo, hi)
    ensures sum == SumRange(GapWeights(exp, base, delta, lo, hi), lo, hi)
  {
    ghost var raw := GapWeights(exp, base, delta, lo, hi);
    dist := map[];
    sum := 0.0;
    var c := lo;
    while c <= hi
      invariant lo <= c <= hi + 1
      invariant dist == GapWeights(exp, base, delta, lo, c - 1)
      invariant sum == SumRange(raw, lo, c - 1)
    {
      var prob := GapAt(exp, base[c], delta, c);
      dist := dist[c := prob];
      sum := sum + prob;
      c := c + 1;
    }
  }

  /** The gap loop of the three-or-more case. */
  method GapsOf(sorted: seq<int>) returns (deltas: seq<int>)
    requires |sorted| >= 2
    ensures deltas == Deltas(sorted)
  {
    deltas := [];
    var i := 1;
    while i < |sorted|
      invariant 1 <= i <= |sorted|
      invariant |deltas| == i - 1
      invariant forall k :: 0 <= k < i - 1 ==> deltas[k] == sorted[k + 1] - sorted[k]
    {
      deltas := deltas + [sorted[i] - sorted[i - 1]];
      i := i + 1;
    }
  }

  /** getCycleDistribution. */
  method GetCycleDistribution(fechas: seq<int>, exp: real -> real, sqrt: real -> real)
    returns (dist: map<int, real>)
    requires Positive(exp)
    ensures dist == CycleDistribution(fechas, exp, sqrt)
  {
    if |fechas| == 0 {
      dist := NormalTruncated(exp, 28.0, 2.5, C_MIN, C_MAX);
      return;
    }
    var sorted := SortBy(fechas, Ascending);
    if |sorted| == 1 {
      dist := NormalTruncated(exp, 28.0, 2.5, C_MIN, C_MAX);
    } else if |sorted| == 2 {
      var delta := sorted[1] - sorted[0];
      assert delta == Deltas(sorted)[0];
      dist := FromGap(exp, delta);
    } else {
      dist := FromSpread(sorted, exp, sqrt);
    }
  }

  /** The two-observation branch: reweights the base distribution around the gap. */
  method FromGap(exp: real -> real, delta: int) returns (dist: map<int, real>)
    requires Positive(exp)
    ensures dist == GapDistribution(exp, BaseCycle(exp), delta)
  {
    var base := NormalTruncated(exp, 28.0, 2.5, C_MIN, C_MAX);
    assert base == BaseCycle(exp);
    var raw, sum := FillGap(exp, base, delta, C_MIN, C_MAX);
    GapWeightsPositive(exp, base, delta, C_MIN, C_MAX);
    dist := Renormalise(raw, C_MIN, C_MAX, sum);
  }

  /** The branch of three or more observations: mean, variance and standard deviation of
      the gaps. */
  method FromSpread(sorted: seq<int>, exp: real -> real, sqrt: real -> real) returns (dist: map<int, real>)
    requires Positive(exp) && |sorted| > 2
    ensures dist == SpreadDistribution(Deltas(sorted), exp, sqrt)
  {
    var deltas := GapsOf(sorted);
    var mean := SumInts(deltas) as real / |deltas| as real;
    var variance := Sum(SquaredDeviations(deltas, mean)) / |deltas| as real;
    var sd := sqrt(variance);
    dist := NormalTruncated(exp, mean, Max(sd, 1.5), C_MIN, C_MAX);
  }

  /** getRuleDistribution. */
  method GetRuleDistribution(exp: real -> real) returns (dist: map<int, real>)
    requires Positive(exp)
    ensures dist == RuleDistribution(exp)
  {
    dist := NormalTruncated(exp, 4.5, 1.0, R_MIN, R_MAX);
  }

  // ---------------------------------------------------------------------------------------
  // getBaseDesire

  /** The hand-tuned desire of days 1..17. */
  const DESIRE_HEAD: map<int, real> := map[
    1 := 0.05, 2 := 0.05, 3 := 0.05, 4 := 0.05, 5 := 0.05, 6 := 0.05,
    7 := 0.12, 8 := 0.18, 9 := 0.26, 10 := 0.34, 11 := 0.44, 12 := 0.55,
    13 := 0.64, 14 := 0.70, 15 := 0.63, 16 := 0.52, 17 := 0.40]

  /** getBaseDesire: the table for days 1..17, a straight line from 0.22 at day 18 towards
      0.12, 0.12 from day 28 on, and 0.05 for any other day. */
  function BaseDesire(day: int): (v: real)
    ensures 0.05 <= v <= 0.70
  {
    if day in DESIRE_HEAD then DESIRE_HEAD[day]
    else if day >= 18 then
      if day >= 28 then 0.12
      else 0.22 + (0.12 - 0.22) * ((day - 18) as real / (28 - 18) as real)
    else 0.05
  }

  /** On days 1..28 the predictor's desire curve is the cycle engine's 28-day template. */
  lemma BaseDesireIsTemplate(day: int)
    requires 1 <= day <= 28
    ensures BaseDesire(day) == CycleEngine.Base28(day)
  {
  }

  /** Only days 13..15 reach the perrisima threshold 0.60, and only days 10..12, 16 and 17
      the horny threshold 0.30 without it. */
  lemma DesireBands(day: int)
    ensures BaseDesire(day) >= 0.60 <==> 13 <= day <= 15
    ensures 0.30 <= BaseDesire(day) < 0.60 <==> 10 <= day <= 12 || 16 <= day <= 17
  {
  }

  // ---------------------------------------------------------------------------------------
  // getMostRecentObservation

  /** The days on or before the target, in their original order. */
  function OnOrBefore(fechas: seq<int>, target: int): (s: seq<int>)
    ensures forall x :: x in s <==> x in fechas && x <= target
  {
    if fechas == [] then []
    else (if fechas[0] <= target then [fechas[0]] else []) + OnOrBefore(fechas[1..], target)
  }

  /** The sort key of the descending comparator `b.getTime() - a.getTime()`. */
  function Descending(day: int): int
  {
    -day
  }

  /** getMostRecentObservation: the first of the days on or before the target once they are
      sorted newest first, or nothing when there is none. */
  function MostRecent(fechas: seq<int>, target: int): Option<int>
  {
    var sorted := SortBy(OnOrBefore(fechas, target), Descending);
    if |sorted| > 0 then Some(sorted[0]) else None
  }

  /** The most recent observation is the latest observed day on or before the target, and
      there is one exactly when some observed day is on or before the target. */
  lemma MostRecentIsLatest(fechas: seq<int>, target: int)
    ensures MostRecent(fechas, target).None? <==> forall x :: x in fechas ==> x > target
    ensures MostRecent(fechas, target).Some? ==>
      var m := MostRecent(fechas, target).value;
      m in fechas && m <= target && forall x :: x in fechas && x <= target ==> x <= m
  {
    var before := OnOrBefore(fechas, target);
    var sorted := SortBy(before, Descending);
    assert forall x :: x in sorted <==> x in before by {
      forall x ensures x in sorted <==> x in before {
        assert x in sorted <==> x in multiset(sorted);
        assert x in before <==> x in multiset(before);
      }
    }
    if |sorted| > 0 {
      assert sorted[0] in before;
      forall x | x in fechas && x <= target ensures x <= sorted[0] {
        assert x in sorted;
        var i :| 0 <= i < |sorted| && sorted[i] == x;
        assert Descending(sorted[0]) <= Descending(sorted[i]);
      }
    } else {
      forall x | x in fechas ensures x > target {
        if x <= target {
          assert false;
        }
      }
    }
  }

  // ---------------------------------------------------------------------------------------
  // predictForDate

  /** `(daysDiff % c) + 1` with JavaScript's remainder, moved up by c when it is not positive. */
  function DayInCycle(dd: int, c: int): (k: int)
    requires c > 0
    ensures 1 <= k <= c
  {
    var k := TruncRem(dd, c) + 1;
    if k <= 0 then k + c else k
  }

  /** The day in the cycle is the Euclidean remainder plus one, whatever the sign of the
      distance, so it repeats with period c. */
  lemma DayInCycleMod(dd: int, c: int)
    requires c > 0
    ensures DayInCycle(dd, c) == dd % c + 1
    ensures DayInCycle(dd + c, c) == DayInCycle(dd, c)
  {
    TruncRemEuclid(dd, c);
    TruncRemEuclid(dd + c, c);
    ModUnique(dd + c, c, dd / c + 1, dd % c);
  }

  /** The category a day k of the cycle gets from the desire curve alone: perrisima from
      0.60 on, horny from 0.30 on, nifunifa below. */
  function DesireCategory(k: int): Category
  {
    if 13 <= k <= 15 then Perrisima
    else if 10 <= k <= 12 || 16 <= k <= 17 then Horny
    else Nifunifa
  }

  /** The category of day k of the cycle when the bleed lasts r days. */
  function PairCategory(k: int, r: int): Category
  {
    if k <= r then Regla else DesireCategory(k)
  }

  /** Every pair lands in exactly one category: regla on the first r days, perrisima on days
      13..15, horny on days 10..12, 16 and 17, and nifunifa on every other day. */
  lemma PairCategoryBands(k: int, r: int)
    ensures PairCategory(k, r) == Regla <==> k <= r
    ensures PairCategory(k, r) == Perrisima <==> r < k && 13 <= k <= 15
    ensures PairCategory(k, r) == Horny <==> r < k && (10 <= k <= 12 || 16 <= k <= 17)
    ensures PairCategory(k, r) == Nifunifa <==> r < k && (k <= 9 || 18 <= k)
  {
    DesireBands(k);
  }

  /** The weights of one row of the grid, for a cycle length of probability probC: at
      position i, the product with the probability of bleed length R_MIN + i. */
  function RowWeights(probC: real, pr: map<int, real>): (w: seq<real>)
    requires forall r :: R_MIN <= r <= R_MAX ==> r in pr
    ensures |w| == R_MAX - R_MIN + 1
  {
    seq(R_MAX - R_MIN + 1, i requires 0 <= i < R_MAX - R_MIN + 1 => probC * pr[R_MIN + i])
  }

  /** The weights of the whole grid: at position j, the row of cycle length C_MIN + j. */
  function Grid(pc: map<int, real>, pr: map<int, real>): (g: seq<seq<real>>)
    requires forall c :: C_MIN <= c <= C_MAX ==> c in pc
    requires forall r :: R_MIN <= r <= R_MAX ==> r in pr
    ensures |g| == C_MAX - C_MIN + 1
  {
    seq(C_MAX - C_MIN + 1, j requires 0 <= j < C_MAX - C_MIN + 1 => RowWeights(pc[C_MIN + j], pr))
  }

  /** The three accumulators of the double loop: the mass per category (`total`), the
      weighted day sum (`expectedDay`) and the total weight (`totalWeight`). */
  datatype Tally = Tally(cats: Scores, expected: real, weight: real)

  const EMPTY := Tally(Zero, 0.0, 0.0)

  /** One pair of the double loop: its weight x goes to category c, and k times x to the day
      sum. */
  function Step(t: Tally, c: Category, k: int, x: real): Tally
  {
    Tally(AddTo(t.cats, c, x), t.expected + k as real * x, t.weight + x)
  }

  /** The inner loop over a row of weights w, for the bleed lengths R_MIN .. R_MIN + |w| - 1,
      when the target falls on day k of the cycle: each pair goes to its category. */
  function Rules(t: Tally, w: seq<real>, k: int): Tally
  {
    if w == [] then t
    else Step(Rules(t, w[..|w| - 1], k), PairCategory(k, R_MIN + |w| - 1), k, w[|w| - 1])
  }

  /** The outer loop over the rows of g, for the cycle lengths C_MIN .. C_MIN + |g| - 1, with
      the target dd days after the reference observation. */
  function Cycles(g: seq<seq<real>>, dd: int): Tally
  {
    if g == [] then EMPTY
    else
      Rules(Cycles(g[..|g| - 1], dd), g[|g| - 1], DayInCycle(dd, C_MIN + |g| - 1))
  }

  /** The result of predictForDate: the four scores and the expected day of the cycle. */
  datatype Prediction = Prediction(scores: Scores, expectedDay: int)

  /** The fixed answer without observations. */
  const NO_DATA := Prediction(Scores(0.15, 0.15, 0.35, 0.35), 1)

  /** The masses divided by their sum when it is positive, and the weighted mean day rounded
      when the weight is positive (1 otherwise). */
  function Finish(t: Tally): Prediction
  {
    var cats := t.cats;
    var sum := Total(cats);
    var scores := if sum > 0.0 then Scores(cats.regla / sum, cats.perrisima / sum, cats.horny / sum, cats.nifunifa / sum)
      else cats;
    Prediction(scores, if t.weight > 0.0 then Round(t.expected / t.weight) else 1)
  }

  /** The observed days of a list of observations. */
  function Fechas(obs: seq<Observation>): (s: seq<int>)
    ensures |s| == |obs| && forall i :: 0 <= i < |obs| ==> s[i] == obs[i].fecha
  {
    seq(|obs|, i requires 0 <= i < |obs| => obs[i].fecha)
  }

  /** The reference day: the most recent observation on or before the target, else the
      first one listed. */
  function Reference(fechas: seq<int>, target: int): int
    requires fechas != []
  {
    match MostRecent(fechas, target)
    case Some(d) => d
    case None => fechas[0]
  }

  /** daysDiff: the days from the reference observation to the target. */
  function DaysDiff(fechas: seq<int>, target: int): int
    requires fechas != []
  {
    target - Reference(fechas, target)
  }

  /** predictForDate for a target day: the double sum over cycle and bleed lengths of the
      category of the target's day in the cycle counted from the reference observation. */
  function PredictionOf(target: int, obs: seq<Observation>, exp: real -> real, sqrt: real -> real): Prediction
    requires Positive(exp)
  {
    if |obs| == 0 then NO_DATA
    else
      PredictFrom(CycleDistribution(Fechas(obs), exp, sqrt), RuleDistribution(exp), DaysDiff(Fechas(obs), target))
  }

  /** The prediction for a target dd days after the reference observation, from the
      distributions of cycle and bleed lengths. */
  function PredictFrom(pc: map<int, real>, pr: map<int, real>, dd: int): Prediction
    requires forall c :: C_MIN <= c <= C_MAX ==> c in pc
    requires forall r :: R_MIN <= r <= R_MAX ==> r in pr
  {
    Finish(Cycles(Grid(pc, pr), dd))
  }

  // ---------------------------------------------------------------------------------------
  // predictForDate, imperatively

  /** One more bleed length: the inner loop over the weights s + [x] extends the one over s
      by the pair (k, R_MIN + |s|) of weight x. */
  lemma RulesPush(t: Tally, s: seq<real>, x: real, k: int, r: int)
    requires r == R_MIN + |s|
    ensures Rules(t, s + [x], k) == Step(Rules(t, s, k), PairCategory(k, r), k, x)
  {
    assert (s + [x])[..|s|] == s;
  }

  /** The same step on the prefixes of one row of the grid. */
  lemma RowPush(t: Tally, probC: real, pr: map<int, real>, k: int, r: int, before: Tally, after: Tally)
    requires forall r :: R_MIN <= r <= R_MAX ==> r in pr
    requires R_MIN <= r <= R_MAX
    requires before == Rules(t, RowWeights(probC, pr)[..r - R_MIN], k)
    requires after == Step(before, PairCategory(k, r), k, probC * pr[r])
    ensures after == Rules(t, RowWeights(probC, pr)[..r + 1 - R_MIN], k)
  {
    var row := RowWeights(probC, pr);
    var s := row[..r - R_MIN];
    var x := probC * pr[r];
    assert row[r - R_MIN] == x;
    assert row[..r + 1 - R_MIN] == s + [x];
    RulesPush(t, s, x, k, r);
  }

  /** The body of the inner loop of predictForDate for the bleed length r, once the pair's
      weight is known: the day of the target in a cycle of c days, its desire, and the
      category that receives the weight. */
  method TallyPair(t0: Tally, weight: real, dd: int, c: int, r: int) returns (t: Tally)
    requires c > 0
    ensures var k := DayInCycle(dd, c);
      t == Step(t0, PairCategory(k, r), k, weight)
  {
    var total, expectedDay, totalWeight := t0.cats, t0.expected, t0.weight;
    var dayInCycle := DayInCycle(dd, c);
    var desire := BaseDesire(dayInCycle);
    DesireBands(dayInCycle);
    expectedDay := expectedDay + dayInCycle as real * weight;
    totalWeight := totalWeight + weight;
    if dayInCycle <= r {
      total := total.(regla := total.regla + weight);
    } else if desire >= 0.60 {
      total := total.(perrisima := total.perrisima + weight);
    } else if desire >= 0.30 {
      total := total.(horny := total.horny + weight);
    } else {
      total := total.(nifunifa := total.nifunifa + weight);
    }
    t := Tally(total, expectedDay, totalWeight);
  }

  /** The inner loop of predictForDate for one cycle length c of probability probC, over the
      bleed lengths in ascending order, each pair weighing probC times the bleed length's
      probability. */
  method TallyRow(t0: Tally, probC: real, pr: map<int, real>, dd: int, c: int) returns (t: Tally)
    requires c > 0
    requires forall r :: R_MIN <= r <= R_MAX ==> r in pr
    ensures t == Rules(t0, RowWeights(probC, pr), DayInCycle(dd, c))
  {
    ghost var k := DayInCycle(dd, c);
    ghost var row := RowWeights(probC, pr);
    t := t0;
    var r := R_MIN;
    while r <= R_MAX
      invariant R_MIN <= r <= R_MAX + 1
      invariant t == Rules(t0, row[..r - R_MIN], k)
    {
      ghost var before := t;
      t := TallyPair(t, probC * pr[r], dd, c, r);
      RowPush(t0, probC, pr, k, r, before, t);
      r := r + 1;
    }
    assert row[..r - R_MIN] == row;
  }

  /** One more cycle length: the outer loop over the rows s + [w] extends the one over s by
      the inner loop over w for cycle length C_MIN + |s|. */
  lemma CyclesPush(s: seq<seq<real>>, w: seq<real>, dd: int)
    ensures Cycles(s + [w], dd) == Rules(Cycles(s, dd), w, DayInCycle(dd, C_MIN + |s|))
  {
    assert (s + [w])[..|s|] == s;
  }

  /** The outer loop of predictForDate, over the cycle lengths in ascending order. */
  method TallyGrid(pc: map<int, real>, pr: map<int, real>, dd: int) returns (t: Tally)
    requires forall c :: C_MIN <= c <= C_MAX ==> c in pc
    requires forall r :: R_MIN <= r <= R_MAX ==> r in pr
    ensures t == Cycles(Grid(pc, pr), dd)
  {
    ghost var g := Grid(pc, pr);
    t := EMPTY;
    var c := C_MIN;
    while c <= C_MAX
      invariant C_MIN <= c <= C_MAX + 1
      invariant t == Cycles(g[..c - C_MIN], dd)
    {
      assert g[..c + 1 - C_MIN] == g[..c - C_MIN] + [g[c - C_MIN]];
      CyclesPush(g[..c - C_MIN], g[c - C_MIN], dd);
      t := TallyRow(t, pc[c], pr, dd, c);
      c := c + 1;
    }
    assert g[..c - C_MIN] == g;
  }

  /** The closing steps of predictForDate: each score divided in place by the sum when it is
      positive, and the expected day. */
  method FinishTally(t: Tally) returns (p: Prediction)
    ensures p == Finish(t)
  {
    var total := t.cats;
    var sum := total.regla + total.perrisima + total.horny + total.nifunifa;
    if sum > 0.0 {
      total := total.(regla := total.regla / sum);
      total := total.(perrisima := total.perrisima / sum);
      total := total.(horny := total.horny / sum);
      total := total.(nifunifa := total.nifunifa / sum);
    }
    var expectedDay := if t.weight > 0.0 then Round(t.expected / t.weight) else 1;
    p := Prediction(total, expectedDay);
  }

  /** The two loops and the closing steps of predictForDate, once the distributions and the
      distance to the reference observation are known. */
  method PredictWith(pc: map<int, real>, pr: map<int, real>, dd: int) returns (p: Prediction)
    requires forall c :: C_MIN <= c <= C_MAX ==> c in pc
    requires forall r :: R_MIN <= r <= R_MAX ==> r in pr
    ensures p == PredictFrom(pc, pr, dd)
  {
    var t := TallyGrid(pc, pr, dd);
    p := FinishTally(t);
  }

  /** predictForDate past its check for an empty list: the two distributions, the reference
      observation, the two loops and the closing steps. */
  method PredictObserved(target: int, obs: seq<Observation>, exp: real -> real, sqrt: real -> real)
    returns (p: Prediction)
    requires Positive(exp) && |obs| > 0
    ensures p == PredictFrom(CycleDistribution(Fechas(obs), exp, sqrt), RuleDistribution(exp), DaysDiff(Fechas(obs), target))
  {
    var pc := GetCycleDistribution(Fechas(obs), exp, sqrt);
    var pr := GetRuleDistribution(exp);
    var refObs := MostRecent(Fechas(obs), target);
    var sRef := if refObs.Some? then refObs.value else Fechas(obs)[0];
    var daysDiff := target - sRef;
    assert daysDiff == DaysDiff(Fechas(obs), target);
    DistributionKeys(pc, C_MIN, C_MAX);
    DistributionKeys(pr, R_MIN, R_MAX);
    p := PredictWith(pc, pr, daysDiff);
  }

  /** predictForDate. */
  method PredictForDate(target: int, obs: seq<Observation>, exp: real -> real, sqrt: real -> real)
    returns (p: Prediction)
    requires Positive(exp)
    ensures p == PredictionOf(target, obs, exp, sqrt)
  {
    if |obs| == 0 {
      return NO_DATA;
    }
    p := PredictObserved(target, obs, exp, sqrt);
    PredictionOfSome(p, target, obs, exp, sqrt);
  }

  // ---------------------------------------------------------------------------------------
  // Properties of predictForDate

  /** No mass is negative. */
  predicate NonNegative(s: Scores)
  {
    s.regla >= 0.0 && s.perrisima >= 0.0 && s.horny >= 0.0 && s.nifunifa >= 0.0
  }

  /** The masses share out exactly the total weight. */
  predicate Balanced(t: Tally)
  {
    Total(t.cats) == t.weight
  }

  /** The day sum lies between 1 and 35 times the weight. */
  predicate DaysInRange(t: Tally)
  {
    t.weight <= t.expected <= 35.0 * t.weight
  }

  /** Every weight of a row is positive. */
  predicate PositiveRow(w: seq<real>)
  {
    forall i :: 0 <= i < |w| ==> w[i] > 0.0
  }

  /** The inner loop keeps the masses balanced against the weight. */
  lemma {:induction false} RulesBalanced(t: Tally, w: seq<real>, k: int)
    requires Balanced(t)
    ensures Balanced(Rules(t, w, k))
  {
    if w != [] {
      RulesBalanced(t, w[..|w| - 1], k);
    }
  }

  lemma AddToNonNegative(s: Scores, c: Category, x: real)
    requires NonNegative(s) && x > 0.0
    ensures NonNegative(AddTo(s, c, x))
  {
  }

  /** The inner loop over positive weights keeps every mass non-negative. */
  lemma {:induction false} RulesNonNegative(t: Tally, w: seq<real>, k: int)
    requires NonNegative(t.cats) && PositiveRow(w)
    ensures NonNegative(Rules(t, w, k).cats)
  {
    if w != [] {
      var front := Rules(t, w[..|w| - 1], k);
      RulesNonNegative(t, w[..|w| - 1], k);
      AddToNonNegative(front.cats, PairCategory(k, R_MIN + |w| - 1), w[|w| - 1]);
    }
  }

  /** A pair on day k in 1..35 of positive weight keeps the day sum between 1 and 35 times
      the weight. */
  lemma StepDays(t: Tally, c: Category, k: int, x: real)
    requires 1 <= k <= 35 && x > 0.0 && DaysInRange(t)
    ensures DaysInRange(Step(t, c, k, x))
  {
    assert x <= k as real * x <= 35.0 * x;
  }

  /** Within one cycle length the day in the cycle k is fixed; with k in 1..35 the inner loop
      over positive weights keeps the day sum between 1 and 35 times the weight. */
  lemma {:induction false} RulesDays(t: Tally, w: seq<real>, k: int)
    requires 1 <= k <= 35 && PositiveRow(w) && DaysInRange(t)
    ensures DaysInRange(Rules(t, w, k))
  {
    if w != [] {
      RulesDays(t, w[..|w| - 1], k);
      StepDays(Rules(t, w[..|w| - 1], k), PairCategory(k, R_MIN + |w| - 1), k, w[|w| - 1]);
    }
  }

  /** After the outer loop the masses share out exactly the total weight. */
  lemma {:induction false} CyclesBalanced(g: seq<seq<real>>, dd: int)
    ensures Balanced(Cycles(g, dd))
  {
    if g != [] {
      var front := g[..|g| - 1];
      CyclesBalanced(front, dd);
      RulesBalanced(Cycles(front, dd), g[|g| - 1], DayInCycle(dd, C_MIN + |g| - 1));
    }
  }

  /** After the outer loop over positive weights no mass is negative. */
  lemma {:induction false} CyclesNonNegative(g: seq<seq<real>>, dd: int)
    requires forall j :: 0 <= j < |g| ==> PositiveRow(g[j])
    ensures NonNegative(Cycles(g, dd).cats)
  {
    if g != [] {
      var front := g[..|g| - 1];
      CyclesNonNegative(front, dd);
      RulesNonNegative(Cycles(front, dd), g[|g| - 1], DayInCycle(dd, C_MIN + |g| - 1));
    }
  }

  /** After the outer loop over at most the rows C_MIN..C_MAX of positive weights, the day
      sum lies between 1 and 35 times the weight. */
  lemma {:induction false} CyclesDays(g: seq<seq<real>>, dd: int)
    requires |g| <= C_MAX - C_MIN + 1
    requires forall j :: 0 <= j < |g| ==> PositiveRow(g[j])
    ensures DaysInRange(Cycles(g, dd))
  {
    if g != [] {
      var front := g[..|g| - 1];
      CyclesDays(front, dd);
      RulesDays(Cycles(front, dd), g[|g| - 1], DayInCycle(dd, C_MIN + |g| - 1));
    }
  }

  /** The inner loop adds the sum of its weights to the total weight. */
  lemma {:induction false} RulesWeight(t: Tally, w: seq<real>, k: int)
    ensures Rules(t, w, k).weight == t.weight + Sum(w)
  {
    if w != [] {
      RulesWeight(t, w[..|w| - 1], k);
    }
  }

  /** The sum of the sums of the rows of g. */
  function SumRows(g: seq<seq<real>>): real
  {
    if g == [] then 0.0 else SumRows(g[..|g| - 1]) + Sum(g[|g| - 1])
  }

  /** The outer loop's total weight is the sum of all the weights of the grid. */
  lemma {:induction false} CyclesWeight(g: seq<seq<real>>, dd: int)
    ensures Cycles(g, dd).weight == SumRows(g)
  {
    if g != [] {
      var front := g[..|g| - 1];
      CyclesWeight(front, dd);
      RulesWeight(Cycles(front, dd), g[|g| - 1], DayInCycle(dd, C_MIN + |g| - 1));
    }
  }

  lemma MulAdd(a: real, x: real, y: real)
    ensures a * (x + y) == a * x + a * y
  {
  }

  /** The first n weights of a row add up to probC times the probability of bleed lengths
      R_MIN .. R_MIN + n - 1. */
  lemma {:induction false} RowWeightSum(probC: real, pr: map<int, real>, n: int)
    requires 0 <= n <= R_MAX - R_MIN + 1
    requires forall r :: R_MIN <= r <= R_MAX ==> r in pr
    ensures Sum(RowWeights(probC, pr)[..n]) == probC * SumRange(pr, R_MIN, R_MIN + n - 1)
  {
    if n > 0 {
      var w := RowWeights(probC, pr);
      assert w[..n][..n - 1] == w[..n - 1];
      RowWeightSum(probC, pr, n - 1);
      MulAdd(probC, SumRange(pr, R_MIN, R_MIN + n - 2), pr[R_MIN + n - 1]);
    }
  }

  lemma MulSwap(a: real, b: real)
    ensures a * b == b * a
  {
  }

  /** The first n rows of the grid weigh the total bleed probability times the probability
      of cycle lengths C_MIN .. C_MIN + n - 1. */
  lemma {:induction false} GridWeightProduct(pc: map<int, real>, pr: map<int, real>, n: int)
    requires 0 <= n <= C_MAX - C_MIN + 1
    requires forall c :: C_MIN <= c <= C_MAX ==> c in pc
    requires forall r :: R_MIN <= r <= R_MAX ==> r in pr
    ensures SumRows(Grid(pc, pr)[..n]) == SumRange(pr, R_MIN, R_MAX) * SumRange(pc, C_MIN, C_MIN + n - 1)
  {
    if n > 0 {
      var g := Grid(pc, pr);
      var c := C_MIN + n - 1;
      assert g[..n][..n - 1] == g[..n - 1];
      GridWeightProduct(pc, pr, n - 1);
      RowWeightSum(pc[c], pr, R_MAX - R_MIN + 1);
      assert RowWeights(pc[c], pr)[..R_MAX - R_MIN + 1] == g[n - 1];
      MulAdd(SumRange(pr, R_MIN, R_MAX), SumRange(pc, C_MIN, c - 1), pc[c]);
      MulSwap(pc[c], SumRange(pr, R_MIN, R_MAX));
    }
  }

  /** Every weight of the grid of two distributions is positive. */
  lemma GridPositive(pc: map<int, real>, pr: map<int, real>)
    requires Distribution(pc, C_MIN, C_MAX) && Distribution(pr, R_MIN, R_MAX)
    ensures forall j :: 0 <= j < |Grid(pc, pr)| ==> PositiveRow(Grid(pc, pr)[j])
  {
    var g := Grid(pc, pr);
    forall j | 0 <= j < |g|
      ensures PositiveRow(g[j])
    {
      var w := RowWeights(pc[C_MIN + j], pr);
      assert g[j] == w;
      forall i | 0 <= i < |w|
        ensures w[i] > 0.0
      {
        assert R_MIN + i in pr;
        MulPositive(pc[C_MIN + j], pr[R_MIN + i]);
      }
    }
  }

  /** With both distributions summing to 1, the double loop spreads a total weight of exactly
      1 over non-negative masses, and the day sum lies between 1 and 35. */
  lemma GridWeight(pc: map<int, real>, pr: map<int, real>, dd: int)
    requires Distribution(pc, C_MIN, C_MAX) && Distribution(pr, R_MIN, R_MAX)
    ensures var t := Cycles(Grid(pc, pr), dd);
      t.weight == 1.0 && Total(t.cats) == 1.0 && NonNegative(t.cats) && 1.0 <= t.expected <= 35.0
  {
    var g := Grid(pc, pr);
    GridWeightProduct(pc, pr, |g|);
    assert g[..|g|] == g;
    assert SumRange(pr, R_MIN, R_MAX) == 1.0 && SumRange(pc, C_MIN, C_MAX) == 1.0;
    CyclesWeight(g, dd);
    assert Cycles(g, dd).weight == 1.0;
    GridPositive(pc, pr);
    CyclesBalanced(g, dd);
    CyclesNonNegative(g, dd);
    CyclesDays(g, dd);
  }

  /** Finishing a tally of weight 1 whose masses add up to 1 keeps the masses and rounds the
      day sum. */
  lemma FinishOfUnitWeight(t: Tally)
    requires NonNegative(t.cats) && Total(t.cats) == 1.0 && t.weight == 1.0 && 1.0 <= t.expected <= 35.0
    ensures Finish(t).scores == t.cats
    ensures 0.0 <= t.cats.regla <= 1.0 && 0.0 <= t.cats.perrisima <= 1.0
    ensures 0.0 <= t.cats.horny <= 1.0 && 0.0 <= t.cats.nifunifa <= 1.0
    ensures 1 <= Finish(t).expectedDay <= C_MAX
  {
    var cats := t.cats;
    assert t.expected / 1.0 == t.expected;
    assert cats.regla / 1.0 == cats.regla && cats.perrisima / 1.0 == cats.perrisima;
    assert cats.horny / 1.0 == cats.horny && cats.nifunifa / 1.0 == cats.nifunifa;
  }

  /** The four scores lie in [0, 1] and add up to 1, and the expected day lies in 1..35. */
  predicate Bounded(p: Prediction)
  {
    Total(p.scores) == 1.0
    && 0.0 <= p.scores.regla <= 1.0 && 0.0 <= p.scores.perrisima <= 1.0
    && 0.0 <= p.scores.horny <= 1.0 && 0.0 <= p.scores.nifunifa <= 1.0
    && 1 <= p.expectedDay <= C_MAX
  }

  /** From two distributions, the four scores lie in [0, 1] and add up to 1, and the
      expected day is between 1 and 35. */
  lemma PredictFromBounds(pc: map<int, real>, pr: map<int, real>, dd: int)
    requires Distribution(pc, C_MIN, C_MAX) && Distribution(pr, R_MIN, R_MAX)
    ensures Bounded(PredictFrom(pc, pr, dd))
  {
    GridWeight(pc, pr, dd);
    FinishOfUnitWeight(Cycles(Grid(pc, pr), dd));
  }

  /** Whenever there are observations, the four scores lie in [0, 1] and add up to 1, and the
      expected day is between 1 and 35. */
  lemma PredictionBounds(target: int, obs: seq<Observation>, exp: real -> real, sqrt: real -> real)
    requires Positive(exp) && |obs| > 0
    ensures Bounded(PredictionOf(target, obs, exp, sqrt))
  {
    var p := PredictFrom(CycleDistribution(Fechas(obs), exp, sqrt), RuleDistribution(exp), DaysDiff(Fechas(obs), target));
    PredictFromBounds(CycleDistribution(Fechas(obs), exp, sqrt), RuleDistribution(exp), DaysDiff(Fechas(obs), target));
    PredictionOfSome(p, target, obs, exp, sqrt);
    BoundedOfEqual(PredictionOf(target, obs, exp, sqrt), p);
  }

  /** With observations, predictForDate predicts from the two distributions and the distance
      to the reference observation. */
  lemma PredictionOfSome(p: Prediction, target: int, obs: seq<Observation>, exp: real -> real, sqrt: real -> real)
    requires Positive(exp) && |obs| > 0
    requires p == PredictFrom(CycleDistribution(Fechas(obs), exp, sqrt), RuleDistribution(exp), DaysDiff(Fechas(obs), target))
    ensures p == PredictionOf(target, obs, exp, sqrt)
  {
  }

  lemma BoundedOfEqual(p: Prediction, q: Prediction)
    requires p == q && Bounded(q)
    ensures Bounded(p)
  {
  }

  /** Only regla holds mass, and the day sum equals the weight. */
  predicate AllRegla(t: Tally)
  {
    t.cats.perrisima == 0.0 && t.cats.horny == 0.0 && t.cats.nifunifa == 0.0 && t.expected == t.weight
  }

  /** On day 1 of the cycle every pair is regla, so the inner loop keeps AllRegla. */
  lemma {:induction false} RulesOnDayOne(t: Tally, w: seq<real>)
    requires AllRegla(t)
    ensures AllRegla(Rules(t, w, 1))
  {
    if w != [] {
      RulesOnDayOne(t, w[..|w| - 1]);
    }
  }

  /** On the reference day itself (0 days after it) only regla receives weight. */
  lemma {:induction false} CyclesOnReferenceDay(g: seq<seq<real>>)
    ensures AllRegla(Cycles(g, 0))
  {
    if g != [] {
      var front := g[..|g| - 1];
      CyclesOnReferenceDay(front);
      assert DayInCycle(0, C_MIN + |g| - 1) == 1;
      RulesOnDayOne(Cycles(front, 0), g[|g| - 1]);
    }
  }

  /** On the reference day itself the prediction is certain regla, on day 1 of the cycle. */
  lemma PredictFromReferenceDay(pc: map<int, real>, pr: map<int, real>)
    requires Distribution(pc, C_MIN, C_MAX) && Distribution(pr, R_MIN, R_MAX)
    ensures PredictFrom(pc, pr, 0) == Prediction(Scores(1.0, 0.0, 0.0, 0.0), 1)
  {
    var t := Cycles(Grid(pc, pr), 0);
    GridWeight(pc, pr, 0);
    CyclesOnReferenceDay(Grid(pc, pr));
    FinishOfUnitWeight(t);
    assert t.cats == Scores(1.0, 0.0, 0.0, 0.0);
    assert Round(1.0) == 1;
  }

  /** On an observed day the prediction is certain regla, on day 1 of the cycle. */
  lemma PredictionOnObservedDay(target: int, obs: seq<Observation>, exp: real -> real, sqrt: real -> real)
    requires Positive(exp)
    requires exists i :: 0 <= i < |obs| && obs[i].fecha == target
    ensures PredictionOf(target, obs, exp, sqrt) == Prediction(Scores(1.0, 0.0, 0.0, 0.0), 1)
  {
    assert target in Fechas(obs);
    MostRecentIsLatest(Fechas(obs), target);
    assert DaysDiff(Fechas(obs), target) == 0;
    PredictFromReferenceDay(CycleDistribution(Fechas(obs), exp, sqrt), RuleDistribution(exp));
  }

  // ---------------------------------------------------------------------------------------
  // getMainCategory and getConfidence

  /** getMainCategory: the reduce over regla, perrisima, horny, nifunifa that replaces the
      running maximum only when an entry is strictly larger. */
  function MainCategory(s: Scores): (c: Category)
    ensures forall x :: Value(s, x) <= Value(s, c)
    ensures forall x :: Rank(x) < Rank(c) ==> Value(s, x) < Value(s, c)
  {
    var c1 := if s.perrisima > s.regla then Perrisima else Regla;
    var c2 := if s.horny > Value(s, c1) then Horny else c1;
    if s.nifunifa > Value(s, c2) then Nifunifa else c2
  }

  /** The two properties of MainCategory pin it down: the first category, in key order,
      holding the largest score. */
  lemma MainCategoryUnique(s: Scores, c: Category)
    requires forall x :: Value(s, x) <= Value(s, c)
    requires forall x :: Rank(x) < Rank(c) ==> Value(s, x) < Value(s, c)
    ensures c == MainCategory(s)
  {
    var m := MainCategory(s);
    assert Value(s, m) == Value(s, c);
    assert Rank(m) == Rank(c);
    RankInjective(c, m);
  }

  lemma RankInjective(a: Category, b: Category)
    requires Rank(a) == Rank(b)
    ensures a == b
  {
  }

  /** getConfidence: the largest of the four scores. */
  function Confidence(s: Scores): (v: real)
    ensures forall x :: Value(s, x) <= v
    ensures v == Value(s, MainCategory(s))
  {
    Max(Max(s.regla, s.perrisima), Max(s.horny, s.nifunifa))
  }
}
