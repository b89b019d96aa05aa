/** The Bayesian cycle engine (utils/cycle_engine.ts): priors over cycle length K and bleed
    length L, a 28-day receptivity template rescaled to K days, a likelihood over observed
    bleeding days, the posterior over the (K, L, r) grid and the four category scores of a
    target day. Dates are day numbers; every constant is an exact `real`. */
module CycleEngine {
  import opened Numeric
  import opened Types

  // ---------------------------------------------------------------------------------------
  // Priors and constants

  /** Prior over the cycle length K. */
  const P_K: map<int, real> := map[26 := 0.10, 27 := 0.12, 28 := 0.30, 29 := 0.20, 30 := 0.15, 31 := 0.08, 32 := 0.05]

  /** Prior over the bleed length L. */
  const P_L: map<int, real> := map[2 := 0.05, 3 := 0.30, 4 := 0.35, 5 := 0.20, 6 := 0.07, 7 := 0.03]

  const T_PERRISIMA: real := 0.75
  const T_HORNY: real := 0.40

  /** Probability of a bleeding observation inside, and outside, the hypothesised bleed window. */
  const P_BLEED: real := 0.95
  const P_FALSE: real := 0.05

  /** Both prior tables are probability distributions over exactly their key ranges. */
  lemma PriorTablesAreDistributions()
    ensures forall K :: K in P_K <==> 26 <= K <= 32
    ensures forall K :: K in P_K ==> P_K[K] > 0.0
    ensures SumRange(P_K, 26, 32) == 1.0
    ensures forall L :: L in P_L <==> 2 <= L <= 7
    ensures forall L :: L in P_L ==> P_L[L] > 0.0
    ensures SumRange(P_L, 2, 7) == 1.0
  {
    assert SumRange(P_K, 26, 32) == P_K[26] + P_K[27] + P_K[28] + P_K[29] + P_K[30] + P_K[31] + P_K[32];
    assert SumRange(P_L, 2, 7) == P_L[2] + P_L[3] + P_L[4] + P_L[5] + P_L[6] + P_L[7];
  }

  // ---------------------------------------------------------------------------------------
  // The 28-day template BASE_28

  /** The hand-tuned days 1..17 of the template. */
  const BASE_HEAD: map<int, real> := map[
    1 := 0.05, 2 := 0.05, 3 := 0.05, 4 := 0.05, 5 := 0.05, 6 := 0.05,
    7 := 0.12, 8 := 0.18, 9 := 0.26, 10 := 0.34, 11 := 0.44, 12 := 0.55,
    13 := 0.64, 14 := 0.70, 15 := 0.63, 16 := 0.52, 17 := 0.40]

  const TAIL_START: real := 0.22
  const TAIL_END: real := 0.12

  /** BASE_28[day] once the load-time loop has filled days 18..28 on the straight line
      from 0.22 down to 0.12. */
  function Base28(day: int): real
    requires 1 <= day <= 28
  {
    if day <= 17 then BASE_HEAD[day]
    else TAIL_START + (TAIL_END - TAIL_START) * ((day - 18) as real / 10.0)
  }

  /** The module-load loop that completes BASE_28. */
  method FillBase28() returns (base: map<int, real>)
    ensures forall day :: day in base <==> 1 <= day <= 28
    ensures forall day :: 1 <= day <= 28 ==> base[day] == Base28(day)
  {
    base := BASE_HEAD;
    var i, day := 0, 18;
    while day <= 28
      invariant 18 <= day <= 29 && i == day - 18
      invariant forall d :: d in base <==> 1 <= d < day
      invariant forall d :: 1 <= d < day ==> base[d] == Base28(d)
    {
      base := base[day := TAIL_START + (TAIL_END - TAIL_START) * (i as real / (28 - 18) as real)];
      i, day := i + 1, day + 1;
    }
  }

  /** Every template value lies in [0.05, 0.70]. */
  lemma Base28Range(day: int)
    requires 1 <= day <= 28
    ensures 0.05 <= Base28(day) <= 0.70
  {
  }

  /** Days 18..28 run in equal steps of -0.01 from 0.22 down to 0.12. */
  lemma Base28Tail()
    ensures Base28(18) == 0.22 && Base28(28) == 0.12
    ensures forall day :: 18 <= day < 28 ==> Base28(day + 1) == Base28(day) - 0.01
    ensures forall d, e :: 18 <= d <= e <= 28 ==> Base28(e) <= Base28(d)
  {
  }

  // ---------------------------------------------------------------------------------------
  // interpCurve: the template rescaled to K days

  /** old_y[j] = BASE_28[j + 1]. */
  function OldY(j: int): real
    requires 0 <= j <= 27
  {
    Base28(j + 1)
  }

  /** new_x[i]: the i-th of K evenly spaced points of [0, 1] (0 when K is 1). */
  function Position(K: nat, i: int): real
    requires 0 <= i < K
  {
    if K > 1 then i as real / (K - 1) as real else 0.0
  }

  /** old_x[j] = j / 27: the knot of template day j + 1 on [0, 1]. */
  function Knot(j: int): real
  {
    j as real / 27.0
  }

  /** x lies on the segment between knots j and j + 1 (the test of the search loop). */
  predicate InSegment(x: real, j: int)
  {
    Knot(j) <= x <= Knot(j + 1)
  }

  /** The template read as a piecewise-linear function of x with knots at j / 27, held
      constant outside [0, 1]. */
  function TemplateAt(x: real): real
  {
    if x <= 0.0 then OldY(0)
    else if x >= 1.0 then OldY(27)
    else
      var k := (27.0 * x).Floor;
      Lerp(OldY(k), OldY(k + 1), 27.0 * x - k as real)
  }

  /** The point a fraction t of the way from a to b. */
  function Lerp(a: real, b: real, t: real): real
  {
    a + t * (b - a)
  }

  /** The curve interpCurve(K) returns. */
  function Curve(K: nat): seq<real>
  {
    seq(K, i requires 0 <= i < K => TemplateAt(Position(K, i)))
  }

  /** Inside (0, 1), x lies on the segment that starts at knot floor(27 x). */
  lemma FloorSegment(x: real)
    requires 0.0 < x < 1.0
    ensures 0 <= (27.0 * x).Floor <= 26 && InSegment(x, (27.0 * x).Floor)
  {
  }

  /** On a knot, the right end of the left segment is the left end of the right segment. */
  lemma LerpEnds(a: real, b: real, c: real)
    ensures Lerp(a, b, 1.0) == b == Lerp(b, c, 0.0)
  {
  }

  /** Where x falls on the segment j that contains it: inside it, or on its right knot. */
  lemma FloorOnSegment(x: real, j: int)
    requires InSegment(x, j)
    ensures (27.0 * x).Floor == j || ((27.0 * x).Floor == j + 1 && 27.0 * x == (j + 1) as real)
  {
    var y := 27.0 * x;
    assert j as real <= y <= (j + 1) as real;
    if y < (j + 1) as real {
      assert y.Floor == j;
    } else {
      assert y.Floor == j + 1;
    }
  }

  /** The segment the search loop finds gives the same value as TemplateAt, also when x sits
      on a knot and the loop stops at the segment to its left. */
  lemma SegmentValue(x: real, j: int)
    requires 0.0 < x < 1.0 && 0 <= j <= 26 && InSegment(x, j)
    ensures Lerp(OldY(j), OldY(j + 1), 27.0 * x - j as real) == TemplateAt(x)
  {
    FloorOnSegment(x, j);
    var k := (27.0 * x).Floor;
    if k == j + 1 {
      assert 27.0 * x - j as real == 1.0 && 27.0 * x - k as real == 0.0;
      LerpEnds(OldY(j), OldY(j + 1), OldY(k + 1));
    }
  }

  /** Dividing by the width 1/27 of a segment is multiplying by 27. */
  lemma DivByWidth(a: real, w: real)
    requires w == 1.0 / 27.0
    ensures a / w == 27.0 * a
  {
  }

  /** One pass of interpCurve's outer loop: the template value at position nx, found by the
      linear search for the segment that contains nx. */
  method InterpAt(nx: real) returns (s: real)
    ensures s == TemplateAt(nx)
  {
    if nx <= Knot(0) {
      s := OldY(0);
    } else if nx >= Knot(27) {
      s := OldY(27);
    } else {
      s := OldY(0);
      FloorSegment(nx);
      var j := 0;
      while j < 27
        invariant 0 <= j <= 27
        invariant forall j' :: 0 <= j' < j ==> !InSegment(nx, j')
      {
        if Knot(j) <= nx && nx <= Knot(j + 1) {
          DivByWidth(nx - Knot(j), Knot(j + 1) - Knot(j));
          var t := (nx - Knot(j)) / (Knot(j + 1) - Knot(j));
          assert t == 27.0 * nx - j as real;
          s := Lerp(OldY(j), OldY(j + 1), t);
          SegmentValue(nx, j);
          return;
        }
        j := j + 1;
      }
      assert false;
    }
  }

  /** interpCurve: rescales BASE_28 onto K evenly spaced points by linear interpolation. */
  method InterpCurve(K: nat) returns (sK: seq<real>)
    ensures sK == Curve(K)
  {
    sK := [];
    var i := 0;
    while i < K
      invariant 0 <= i <= K
      invariant |sK| == i
      invariant forall i' :: 0 <= i' < i ==> sK[i'] == TemplateAt(Position(K, i'))
    {
      var nx := if K > 1 then i as real / (K - 1) as real else 0.0;
      var s := InterpAt(nx);
      sK := sK + [s];
      i := i + 1;
    }
  }

  /** TemplateAt stays within the template's range [0.05, 0.70]. */
  lemma TemplateAtRange(x: real)
    ensures 0.05 <= TemplateAt(x) <= 0.70
  {
    if 0.0 < x < 1.0 {
      FloorSegment(x);
      var k := (27.0 * x).Floor;
      Base28Range(k + 1);
      Base28Range(k + 2);
      Between(OldY(k), OldY(k + 1), 27.0 * x - k as real, 0.05, 0.70);
    } else {
      Base28Range(1);
      Base28Range(28);
    }
  }

  lemma MulNonneg(a: real, b: real)
    requires a >= 0.0 && b >= 0.0
    ensures a * b >= 0.0
  {
  }

  /** A point between a and b lies between any bounds of a and b. */
  lemma Between(a: real, b: real, t: real, lo: real, hi: real)
    requires lo <= a <= hi && lo <= b <= hi && 0.0 <= t <= 1.0
    ensures lo <= Lerp(a, b, t) <= hi
  {
    assert a + t * (b - a) == (1.0 - t) * a + t * b;
    MulNonneg(1.0 - t, a - lo);
    MulNonneg(t, b - lo);
    MulNonneg(1.0 - t, hi - a);
    MulNonneg(t, hi - b);
  }

  /** interpCurve(K) has K values, starts at BASE_28[1] = 0.05, ends at BASE_28[28] = 0.12
      when K >= 2, and every value lies in [0.05, 0.70]. */
  lemma CurveShape(K: nat)
    ensures |Curve(K)| == K
    ensures K >= 1 ==> Curve(K)[0] == 0.05
    ensures K >= 2 ==> Curve(K)[K - 1] == 0.12
    ensures K == 1 ==> Curve(K) == [0.05]
    ensures forall i :: 0 <= i < K ==> 0.05 <= Curve(K)[i] <= 0.70
  {
    forall i | 0 <= i < K ensures 0.05 <= Curve(K)[i] <= 0.70 {
      TemplateAtRange(Position(K, i));
    }
    if K >= 1 {
      assert Position(K, 0) == 0.0;
    }
    if K >= 2 {
      DivSelf((K - 1) as real);
      assert Position(K, K - 1) == 1.0;
      assert TemplateAt(1.0) == OldY(27) == 0.12;
    }
  }

  // ---------------------------------------------------------------------------------------
  // likelihood

  /** Cycle day, under cycle length K and phase r at the reference day, of the day d days
      after the reference: `((r + d - 1) % K) + 1` with JavaScript's truncating `%`, so it is
      at most 1 for days far enough before the reference. */
  function CycleDay(K: int, r: int, d: int): int
    requires K > 0
  {
    TruncRem(r + d - 1, K) + 1
  }

  /** The hypothesis (K, L, r) puts the day d days after the reference inside a bleed window. */
  predicate InBleed(K: int, L: int, r: int, d: int)
    requires K > 0
  {
    1 <= CycleDay(K, r, d) && CycleDay(K, r, d) <= L
  }

  /** P(observation on day t | K, L, r, reference t0). */
  function Factor(t: int, K: int, L: int, r: int, t0: int): real
    requires K > 0
  {
    if InBleed(K, L, r, t - t0) then P_BLEED else P_FALSE
  }

  /** How many observations the hypothesis places inside a bleed window. */
  function Hits(obs: seq<int>, K: int, L: int, r: int, t0: int): (n: nat)
    requires K > 0
    ensures n <= |obs|
  {
    if obs == [] then 0
    else Hits(obs[..|obs| - 1], K, L, r, t0) + (if InBleed(K, L, r, obs[|obs| - 1] - t0) then 1 else 0)
  }

  /** The likelihood of the observations under (K, L, r): 0.95 for every observation inside
      a bleed window times 0.05 for every observation outside one. */
  function Likelihood(obs: seq<int>, K: int, L: int, r: int, t0: int): real
    requires K > 0
  {
    Pow(P_BLEED, Hits(obs, K, L, r, t0)) * Pow(P_FALSE, |obs| - Hits(obs, K, L, r, t0))
  }

  /** likelihood: multiplies `prod` by 0.95 or 0.05 per observation, in list order. */
  method ComputeLikelihood(obs: seq<int>, K: int, L: int, r: int, t0: int) returns (prod: real)
    requires K > 0
    ensures prod == Likelihood(obs, K, L, r, t0)
  {
    prod := 1.0;
    for i := 0 to |obs|
      invariant prod == Likelihood(obs[..i], K, L, r, t0)
    {
      var d := obs[i] - t0;
      var cd := CycleDay(K, r, d);
      LikelihoodPush(obs, i, K, L, r, t0, prod);
      if 1 <= cd && cd <= L {
        prod := prod * P_BLEED;
      } else {
        prod := prod * P_FALSE;
      }
    }
    assert obs[..|obs|] == obs;
  }

  /** Multiplying the likelihood of obs[..i] by the factor of obs[i] gives that of obs[..i + 1]. */
  lemma LikelihoodPush(obs: seq<int>, i: int, K: int, L: int, r: int, t0: int, prev: real)
    requires K > 0 && 0 <= i < |obs| && prev == Likelihood(obs[..i], K, L, r, t0)
    ensures InBleed(K, L, r, obs[i] - t0) ==> prev * P_BLEED == Likelihood(obs[..i + 1], K, L, r, t0)
    ensures !InBleed(K, L, r, obs[i] - t0) ==> prev * P_FALSE == Likelihood(obs[..i + 1], K, L, r, t0)
  {
    assert obs[..i + 1][..i] == obs[..i];
    var h, n := Hits(obs[..i], K, L, r, t0), |obs[..i]|;
    var hits := Hits(obs[..i + 1], K, L, r, t0);
    var misses := |obs[..i + 1]| - hits;
    if InBleed(K, L, r, obs[i] - t0) {
      PowProductStep(P_BLEED, P_FALSE, prev, P_BLEED, h, n, hits, misses);
    } else {
      PowProductStep(P_BLEED, P_FALSE, prev, P_FALSE, h, n, hits, misses);
    }
  }

  /** Multiplying p^h q^(n-h) by p (a hit) or by q (a miss) gives the form for n + 1. */
  lemma PowProductStep(p: real, q: real, prev: real, f: real, h: nat, n: nat, hits: nat, misses: nat)
    requires p != q && h <= n && prev == Pow(p, h) * Pow(q, n - h)
    requires (f == p && hits == h + 1) || (f == q && hits == h)
    requires misses == n + 1 - hits
    ensures prev * f == Pow(p, hits) * Pow(q, misses)
  {
    if f == p {
      PowStepLeft(p, h, Pow(q, n - h));
    } else {
      PowStepRight(q, n - h, Pow(p, h));
    }
  }

  lemma PowStepLeft(x: real, n: nat, b: real)
    ensures (Pow(x, n) * b) * x == Pow(x, n + 1) * b
  {
    assert Pow(x, n + 1) == Pow(x, n) * x;
  }

  lemma PowStepRight(x: real, n: nat, a: real)
    ensures (a * Pow(x, n)) * x == a * Pow(x, n + 1)
  {
    assert Pow(x, n + 1) == Pow(x, n) * x;
  }

  /** Every likelihood is positive. */
  lemma LikelihoodPositive(obs: seq<int>, K: int, L: int, r: int, t0: int)
    requires K > 0
    ensures Likelihood(obs, K, L, r, t0) > 0.0
  {
    PowPositive(P_BLEED, Hits(obs, K, L, r, t0));
    PowPositive(P_FALSE, |obs| - Hits(obs, K, L, r, t0));
    MulPositive(Pow(P_BLEED, Hits(obs, K, L, r, t0)), Pow(P_FALSE, |obs| - Hits(obs, K, L, r, t0)));
  }

  /** The reference observation itself (d = 0) always falls on day r of the bleed window. */
  lemma ReferenceInBleed(K: int, L: int, r: int, t0: int)
    requires 1 <= r <= L && r <= K
    ensures CycleDay(K, r, 0) == r
    ensures Factor(t0, K, L, r, t0) == P_BLEED
  {
  }

  /** Because `%` truncates, a day with r + d - 1 < 0 is inside a bleed window only when
      r + d - 1 is a multiple of K (cycle day 1); any other earlier day gets cycle day <= 0.
      From r + d - 1 >= 0 on, the cycle day is the Euclidean one. */
  lemma EarlierDays(K: int, L: int, r: int, d: int)
    requires K > 0 && L >= 1
    ensures r + d - 1 < 0 ==> (InBleed(K, L, r, d) <==> (r + d - 1) % K == 0)
    ensures r + d - 1 < 0 && (r + d - 1) % K != 0 ==> CycleDay(K, r, d) <= 0
    ensures r + d - 1 >= 0 ==> CycleDay(K, r, d) == (r + d - 1) % K + 1
  {
    TruncRemEuclid(r + d - 1, K);
  }

  // ---------------------------------------------------------------------------------------
  // The hypothesis grid

  /** One hypothesis: cycle length K, bleed length L, and the reference is day r of a bleed. */
  datatype Cell = Cell(K: int, L: int, r: int)

  predicate ValidCell(c: Cell)
  {
    26 <= c.K <= 32 && 2 <= c.L <= 7 && 1 <= c.r <= c.L
  }

  /** Number of cells with bleed length below L under one cycle length: 2 + 3 + ... + (L - 1). */
  function Offset(L: int): int
  {
    L * (L - 1) / 2 - 1
  }

  /** Position of a cell in the enumeration order of buildPosterior: K outermost, then L,
      then r, each ascending; 27 cells per cycle length. */
  function Index(c: Cell): int
  {
    27 * (c.K - 26) + Offset(c.L) + c.r - 1
  }

  /** The bleed length whose cells occupy position j (0 <= j < 27) within one cycle length. */
  function BleedAt(j: int): int
  {
    if j < 2 then 2 else if j < 5 then 3 else if j < 9 then 4
    else if j < 14 then 5 else if j < 20 then 6 else 7
  }

  /** The cell at position i of the enumeration. */
  function CellAt(i: int): Cell
  {
    var j := i % 27;
    var L := BleedAt(j);
    Cell(26 + i / 27, L, j - Offset(L) + 1)
  }

  /** The grid in the order buildPosterior enumerates it (keys of P_K and P_L ascending). */
  function Grid(): seq<Cell>
  {
    seq(GridSize(), CellAt)
  }

  /** 7 cycle lengths x (2 + 3 + 4 + 5 + 6 + 7) cells. */
  function GridSize(): nat
  {
    189
  }

  /** Lexicographic order on (K, L, r). */
  predicate Before(a: Cell, b: Cell)
  {
    a.K < b.K || (a.K == b.K && (a.L < b.L || (a.L == b.L && a.r < b.r)))
  }

  lemma OffsetBounds(c: Cell)
    requires ValidCell(c)
    ensures 0 <= Offset(c.L) + c.r - 1 < 27
    ensures Offset(c.L) + c.r - 1 < Offset(c.L + 1)
  {
  }

  /** Reading the cell back from its position gives the cell. */
  lemma CellAtIndex(c: Cell)
    requires ValidCell(c)
    ensures 0 <= Index(c) < GridSize()
    ensures CellAt(Index(c)) == c
  {
    var m := Offset(c.L) + c.r - 1;
    OffsetBounds(c);
    ModUnique(Index(c), 27, c.K - 26, m);
    assert BleedAt(m) == c.L;
  }

  /** Every position of the grid holds a valid cell, whose index is that position. */
  lemma IndexCellAt(i: int)
    requires 0 <= i < GridSize()
    ensures ValidCell(CellAt(i))
    ensures Index(CellAt(i)) == i
  {
    var j := i % 27;
    assert i == 27 * (i / 27) + j;
    assert 0 <= i / 27 < 7;
  }

  /** Positions increase along the lexicographic order. */
  lemma IndexOrder(a: Cell, b: Cell)
    requires ValidCell(a) && ValidCell(b)
    ensures Before(a, b) <==> Index(a) < Index(b)
  {
    OffsetBounds(a);
    OffsetBounds(b);
    if a.K == b.K && a.L < b.L {
      assert Offset(a.L + 1) <= Offset(b.L);
    } else if a.K == b.K && b.L < a.L {
      assert Offset(b.L + 1) <= Offset(a.L);
    }
  }

  /** The grid holds every (K, L, r) with K in 26..32, L in 2..7 and 1 <= r <= L exactly
      once, in lexicographic order. */
  lemma GridShape()
    ensures |Grid()| == 189
    ensures forall c :: c in Grid() <==> ValidCell(c)
    ensures forall i, j :: 0 <= i < j < |Grid()| ==> Before(Grid()[i], Grid()[j])
  {
    var g := Grid();
    forall c ensures c in g <==> ValidCell(c) {
      if ValidCell(c) {
        CellAtIndex(c);
        assert g[Index(c)] == c;
      }
      if c in g {
        var i :| 0 <= i < |g| && g[i] == c;
        IndexCellAt(i);
      }
    }
    forall i, j | 0 <= i < j < |g| ensures Before(g[i], g[j]) {
      IndexCellAt(i);
      IndexCellAt(j);
      IndexOrder(g[i], g[j]);
    }
  }

  // ---------------------------------------------------------------------------------------
  // buildPosterior

  /** A row of the posterior table: hypothesis, raw weight, normalised weight, curve of K. */
  datatype PosteriorRow = PosteriorRow(K: int, L: int, r: int, w: real, wNorm: real, sK: seq<real>)

  /** The posterior and its reference day (null for no observations). */
  datatype Posterior = Posterior(rows: seq<PosteriorRow>, t0: Option<int>)

  /** P(K) * P(L) * 1/L: the prior of a cell, uniform over r given L. */
  function Prior(K: int, L: int): real
    requires 26 <= K <= 32 && 2 <= L <= 7
  {
    P_K[K] * P_L[L] * (1.0 / L as real)
  }

  /** The unnormalised posterior weight of a cell: prior times likelihood. */
  function Weight(K: int, L: int, like: real): real
    requires 26 <= K <= 32 && 2 <= L <= 7
  {
    Prior(K, L) * like
  }

  /** The row pushed for cell (K, L, r) before normalisation. */
  function RawRow(K: int, L: int, r: int, like: real): PosteriorRow
    requires 26 <= K <= 32 && 2 <= L <= 7
  {
    PosteriorRow(K, L, r, Weight(K, L, like), 0.0, Curve(K))
  }

  /** The raw row of the cell at grid position i. */
  function RawRowAt(i: int, obs: seq<int>, t0: int): PosteriorRow
    requires 0 <= i < GridSize()
  {
    IndexCellAt(i);
    var c := CellAt(i);
    RawRow(c.K, c.L, c.r, Likelihood(obs, c.K, c.L, c.r, t0))
  }

  /** Sum of the raw weights, added in row order. */
  function TotalWeight(rows: seq<PosteriorRow>): real
  {
    if rows == [] then 0.0 else TotalWeight(rows[..|rows| - 1]) + rows[|rows| - 1].w
  }

  /** Sum of the normalised weights, added in row order. */
  function TotalNorm(rows: seq<PosteriorRow>): real
  {
    if rows == [] then 0.0 else TotalNorm(rows[..|rows| - 1]) + rows[|rows| - 1].wNorm
  }

  /** w / total, or 1/n when the total is not positive (the uniform fallback). */
  function NormWeight(w: real, total: real, n: nat): real
    requires n > 0
  {
    if total <= 0.0 then 1.0 / n as real else w / total
  }

  /** The rows with their normalised weights filled in. */
  function Normalised(rows: seq<PosteriorRow>): seq<PosteriorRow>
  {
    seq(|rows|, i requires 0 <= i < |rows| =>
      rows[i].(wNorm := NormWeight(rows[i].w, TotalWeight(rows), |rows|)))
  }

  /** The value buildPosterior returns: the reference is the LAST observation of the list. */
  function PosteriorOf(obs: seq<int>): Posterior
  {
    if obs == [] then Posterior([], None)
    else
      var t0 := obs[|obs| - 1];
      Posterior(Normalised(RawTable(obs, t0)), Some(t0))
  }

  /** The raw rows of the whole grid, in grid order. */
  function RawTable(obs: seq<int>, t0: int): seq<PosteriorRow>
  {
    seq(GridSize(), i requires 0 <= i < GridSize() => RawRowAt(i, obs, t0))
  }

  lemma OffsetStep(L: int)
    ensures Offset(L + 1) == Offset(L) + L
  {
    assert (L + 1) * L == L * (L - 1) + 2 * L;
  }

  /** The first n rows are the raw rows of the first n grid cells. */
  predicate RawPrefix(rows: seq<PosteriorRow>, obs: seq<int>, t0: int)
  {
    |rows| <= GridSize() && forall i :: 0 <= i < |rows| ==> rows[i] == RawRowAt(i, obs, t0)
  }

  lemma RawPrefixPush(rows: seq<PosteriorRow>, obs: seq<int>, t0: int, K: int, L: int, r: int)
    requires ValidCell(Cell(K, L, r)) && RawPrefix(rows, obs, t0) && Index(Cell(K, L, r)) == |rows|
    ensures RawPrefix(rows + [RawRow(K, L, r, Likelihood(obs, K, L, r, t0))], obs, t0)
  {
    CellAtIndex(Cell(K, L, r));
  }

  /** The body of the innermost loop of buildPosterior: prior times likelihood. */
  method MakeRow(obs: seq<int>, t0: int, K: int, L: int, r: int, sK: seq<real>) returns (row: PosteriorRow)
    requires 26 <= K <= 32 && 2 <= L <= 7 && sK == Curve(K)
    ensures row == RawRow(K, L, r, Likelihood(obs, K, L, r, t0))
  {
    var like := ComputeLikelihood(obs, K, L, r, t0);
    var w := Weight(K, L, like);
    row := PosteriorRow(K, L, r, w, 0.0, sK);
  }

  /** The innermost loop of buildPosterior: pushes the rows (K, L, 1), ..., (K, L, L). */
  method PushPhases(obs: seq<int>, t0: int, K: int, L: int, sK: seq<real>, rows: seq<PosteriorRow>)
    returns (rows': seq<PosteriorRow>)
    requires 26 <= K <= 32 && 2 <= L <= 7 && sK == Curve(K)
    requires |rows| == 27 * (K - 26) + Offset(L) && RawPrefix(rows, obs, t0)
    ensures |rows'| == 27 * (K - 26) + Offset(L + 1) && RawPrefix(rows', obs, t0)
  {
    rows' := rows;
    var r := 1;
    while r <= L
      invariant 1 <= r <= L + 1
      invariant |rows'| == 27 * (K - 26) + Offset(L) + r - 1
      invariant RawPrefix(rows', obs, t0)
    {
      var row := MakeRow(obs, t0, K, L, r, sK);
      RawPrefixPush(rows', obs, t0, K, L, r);
      rows' := rows' + [row];
      r := r + 1;
    }
    OffsetStep(L);
  }

  /** The loop over the keys of P_K, with the loop over the keys of P_L inside it. */
  method RawRows(obs: seq<int>, t0: int) returns (rows: seq<PosteriorRow>)
    ensures |rows| == GridSize() && RawPrefix(rows, obs, t0)
  {
    rows := [];
    var K := 26;
    while K <= 32
      invariant 26 <= K <= 33
      invariant |rows| == 27 * (K - 26)
      invariant RawPrefix(rows, obs, t0)
    {
      var sK := InterpCurve(K);
      var L := 2;
      while L <= 7
        invariant 2 <= L <= 8
        invariant |rows| == 27 * (K - 26) + Offset(L)
        invariant RawPrefix(rows, obs, t0)
      {
        rows := PushPhases(obs, t0, K, L, sK, rows);
        L := L + 1;
      }
      K := K + 1;
    }
  }

  /** The second half of buildPosterior: sums the raw weights, then overwrites every row's
      normalised weight in place. */
  method Normalise(raw: seq<PosteriorRow>) returns (rows: seq<PosteriorRow>)
    requires |raw| > 0
    ensures rows == Normalised(raw)
  {
    rows := raw;
    var total := 0.0;
    for i := 0 to |rows|
      invariant total == TotalWeight(rows[..i])
    {
      total := total + rows[i].w;
      assert rows[..i + 1][..i] == rows[..i];
    }
    assert rows[..|rows|] == rows;
    if total <= 0.0 {
      var n := |rows|;
      for i := 0 to |rows|
        invariant |rows| == |raw|
        invariant forall k :: 0 <= k < i ==> rows[k] == raw[k].(wNorm := 1.0 / n as real)
        invariant forall k :: i <= k < |rows| ==> rows[k] == raw[k]
      {
        rows := rows[i := rows[i].(wNorm := 1.0 / n as real)];
      }
    } else {
      for i := 0 to |rows|
        invariant |rows| == |raw|
        invariant forall k :: 0 <= k < i ==> rows[k] == raw[k].(wNorm := raw[k].w / total)
        invariant forall k :: i <= k < |rows| ==> rows[k] == raw[k]
      {
        rows := rows[i := rows[i].(wNorm := rows[i].w / total)];
      }
    }
  }

  /** buildPosterior: one raw row per cell, in grid order, then normalised; the reference
      is the last observation of the list. */
  method BuildPosterior(obs: seq<int>) returns (post: Posterior)
    ensures post == PosteriorOf(obs)
  {
    if |obs| == 0 {
      return Posterior([], None);
    }
    var t0 := obs[|obs| - 1];
    var raw := RawRows(obs, t0);
    assert raw == RawTable(obs, t0);
    var rows := Normalise(raw);
    post := Posterior(rows, Some(t0));
  }

  // ---------------------------------------------------------------------------------------
  // Properties of the posterior

  /** The hypothesis a row is about. */
  function CellOf(row: PosteriorRow): Cell
  {
    Cell(row.K, row.L, row.r)
  }

  /** The empty list gives no rows and no reference; otherwise the reference is the last
      observation and the rows are the 189 cells of the grid in grid order, each with the
      curve of its own cycle length. */
  /** The posterior's reference date is the last observation. */
  lemma PosteriorOrigin(obs: seq<int>)
    requires obs != []
    ensures PosteriorOf(obs).t0 == Some(obs[|obs| - 1])
  {
    PosteriorShape(obs);
  }

  lemma PosteriorShape(obs: seq<int>)
    ensures obs == [] ==> PosteriorOf(obs) == Posterior([], None)
    ensures obs != [] ==> PosteriorOf(obs).t0 == Some(obs[|obs| - 1])
    ensures obs != [] ==> |PosteriorOf(obs).rows| == |Grid()| == 189
    ensures obs != [] ==> forall i :: 0 <= i < |PosteriorOf(obs).rows| ==>
      CellOf(PosteriorOf(obs).rows[i]) == Grid()[i] && PosteriorOf(obs).rows[i].sK == Curve(PosteriorOf(obs).rows[i].K)
  {
    if obs != [] {
      GridShape();
      var rows := PosteriorOf(obs).rows;
      forall i | 0 <= i < |rows|
        ensures CellOf(rows[i]) == Grid()[i] && rows[i].sK == Curve(rows[i].K)
      {
        IndexCellAt(i);
      }
    }
  }

  /** Every raw weight is positive: each prior entry is, and so is every likelihood. */
  lemma {:induction false} RawWeightsPositive(obs: seq<int>, t0: int)
    ensures forall i :: 0 <= i < |RawTable(obs, t0)| ==> RawTable(obs, t0)[i].w > 0.0
  {
    forall i | 0 <= i < GridSize() ensures RawRowAt(i, obs, t0).w > 0.0 {
      IndexCellAt(i);
      var c := CellAt(i);
      RawRowPositive(c.K, c.L, c.r, obs, t0);
    }
  }

  lemma {:induction false} RawRowPositive(K: int, L: int, r: int, obs: seq<int>, t0: int)
    requires 26 <= K <= 32 && 2 <= L <= 7
    ensures RawRow(K, L, r, Likelihood(obs, K, L, r, t0)).w > 0.0
  {
    LikelihoodPositive(obs, K, L, r, t0);
    PriorPositive(K, L);
    MulPositive(Prior(K, L), Likelihood(obs, K, L, r, t0));
  }

  lemma PriorPositive(K: int, L: int)
    requires 26 <= K <= 32 && 2 <= L <= 7
    ensures Prior(K, L) > 0.0
  {
    PriorTablesAreDistributions();
    MulPositive(P_K[K], P_L[L]);
    MulPositive(P_K[K] * P_L[L], 1.0 / L as real);
  }

  /** A non-empty sum of positive weights is positive. */
  lemma {:induction false} TotalWeightPositive(rows: seq<PosteriorRow>)
    requires |rows| > 0
    requires forall i :: 0 <= i < |rows| ==> rows[i].w > 0.0
    ensures TotalWeight(rows) > 0.0
  {
    if |rows| > 1 {
      TotalWeightPositive(rows[..|rows| - 1]);
    }
  }

  /** With exact arithmetic the uniform fallback of buildPosterior is never taken. */
  lemma FallbackUnreachable(obs: seq<int>, t0: int)
    ensures TotalWeight(RawTable(obs, t0)) > 0.0
  {
    RawWeightsPositive(obs, t0);
    TotalWeightPositive(RawTable(obs, t0));
  }

  /** Dividing every weight by `total` divides every prefix sum by `total`. */
  lemma {:induction false} ScaledPrefix(rows: seq<PosteriorRow>, out: seq<PosteriorRow>, k: nat, total: real)
    requires total != 0.0 && |out| == |rows| && k <= |rows|
    requires forall i :: 0 <= i < |rows| ==> out[i].wNorm == rows[i].w / total
    ensures TotalNorm(out[..k]) == TotalWeight(rows[..k]) / total
  {
    if k > 0 {
      ScaledPrefix(rows, out, k - 1, total);
      assert out[..k][..k - 1] == out[..k - 1];
      assert rows[..k][..k - 1] == rows[..k - 1];
      DivAdd(TotalWeight(rows[..k - 1]), rows[k - 1].w, total);
    }
  }

  /** Giving every row 1/n makes every prefix of length k sum to k/n. */
  lemma {:induction false} UniformPrefix(out: seq<PosteriorRow>, k: nat, n: nat)
    requires n > 0 && k <= |out|
    requires forall i :: 0 <= i < |out| ==> out[i].wNorm == 1.0 / n as real
    ensures TotalNorm(out[..k]) == k as real / n as real
  {
    if k > 0 {
      UniformPrefix(out, k - 1, n);
      assert out[..k][..k - 1] == out[..k - 1];
      DivAdd((k - 1) as real, 1.0, n as real);
    }
  }

  /** Whichever branch is taken, the normalised weights of a non-empty table sum to 1. */
  lemma NormalisedSumsToOne(rows: seq<PosteriorRow>)
    requires |rows| > 0
    ensures TotalNorm(Normalised(rows)) == 1.0
  {
    var out, total := Normalised(rows), TotalWeight(rows);
    assert out[..|out|] == out && rows[..|rows|] == rows;
    if total <= 0.0 {
      UniformPrefix(out, |out|, |rows|);
      DivSelf(|rows| as real);
    } else {
      ScaledPrefix(rows, out, |out|, total);
      DivSelf(total);
    }
  }

  /** Normalising positive weights gives positive weights w / total that sum to 1. */
  lemma NormalisedWeights(raw: seq<PosteriorRow>)
    requires |raw| > 0
    requires forall i :: 0 <= i < |raw| ==> raw[i].w > 0.0
    ensures var rows := Normalised(raw);
      TotalWeight(rows) > 0.0
      && (forall i :: 0 <= i < |rows| ==> rows[i].wNorm > 0.0 && rows[i].wNorm == rows[i].w / TotalWeight(rows))
      && TotalNorm(rows) == 1.0
  {
    TotalWeightPositive(raw);
    NormalisedSumsToOne(raw);
    var rows := Normalised(raw);
    SameWeights(rows, raw, |rows|);
    assert rows[..|rows|] == rows && raw[..|raw|] == raw;
    forall i | 0 <= i < |rows| ensures rows[i].wNorm > 0.0 {
      assert rows[i].wNorm == raw[i].w / TotalWeight(raw);
    }
  }

  /** The posterior's weights are w / total, each positive, and they sum to 1. */
  lemma {:induction false} PosteriorWeights(obs: seq<int>)
    requires obs != []
    ensures var rows := PosteriorOf(obs).rows;
      TotalWeight(rows) > 0.0
      && (forall i :: 0 <= i < |rows| ==> rows[i].wNorm > 0.0 && rows[i].wNorm == rows[i].w / TotalWeight(rows))
      && TotalNorm(rows) == 1.0
  {
    var t0 := obs[|obs| - 1];
    RawWeightsPositive(obs, t0);
    NormalisedWeights(RawTable(obs, t0));
  }

  /** Normalising leaves the raw weights alone, so their sum is unchanged. */
  lemma {:induction false} SameWeights(a: seq<PosteriorRow>, b: seq<PosteriorRow>, k: nat)
    requires |a| == |b| && k <= |a|
    requires forall i :: 0 <= i < |a| ==> a[i].w == b[i].w
    ensures TotalWeight(a[..k]) == TotalWeight(b[..k])
  {
    if k > 0 {
      SameWeights(a, b, k - 1);
      assert a[..k][..k - 1] == a[..k - 1];
      assert b[..k][..k - 1] == b[..k - 1];
    }
  }

  // ---------------------------------------------------------------------------------------
  // scoreForTarget

  /** The observation dates that parse, in list order; `None` stands for a string that
      yields an invalid date. */
  function ValidDates(dates: seq<Option<int>>): (obs: seq<int>)
    ensures |obs| <= |dates|
  {
    if dates == [] then []
    else
      var init := ValidDates(dates[..|dates| - 1]);
      match dates[|dates| - 1]
      case None => init
      case Some(t) => init + [t]
  }

  /** No date survives the filter exactly when none parses. */
  lemma {:induction false} ValidDatesEmpty(dates: seq<Option<int>>)
    ensures ValidDates(dates) == [] <==> forall i :: 0 <= i < |dates| ==> dates[i].None?
  {
    if dates != [] {
      ValidDatesEmpty(dates[..|dates| - 1]);
    }
  }

  /** `sK[cd - 1]`, which is undefined when cd - 1 is not an index of sK. */
  function Desire(sK: seq<real>, cd: int): Option<real>
  {
    if 1 <= cd <= |sK| then Some(sK[cd - 1]) else None
  }

  /** The category that receives a row's weight for the day d days after the reference; an
      undefined desire passes neither threshold. */
  function CategoryOf(row: PosteriorRow, d: int): Category
    requires row.K > 0
  {
    var cd := CycleDay(row.K, row.r, d);
    var desire := Desire(row.sK, cd);
    if 1 <= cd && cd <= row.L then Regla
    else if desire.Some? && desire.value >= T_PERRISIMA then Perrisima
    else if desire.Some? && desire.value >= T_HORNY then Horny
    else Nifunifa
  }

  predicate PositiveCycles(rows: seq<PosteriorRow>)
  {
    forall i :: 0 <= i < |rows| ==> rows[i].K > 0
  }

  /** The category masses: each row's normalised weight added, in row order, to its category. */
  function Accumulate(rows: seq<PosteriorRow>, d: int): Scores
    requires PositiveCycles(rows)
  {
    if rows == [] then Zero
    else
      var row := rows[|rows| - 1];
      AddTo(Accumulate(rows[..|rows| - 1], d), CategoryOf(row, d), row.wNorm)
  }

  /** Each mass divided by the total and rounded to four decimals, when the total is positive. */
  function Normalise4(c: Scores): Scores
  {
    var s := Total(c);
    if s > 0.0 then
      Scores(Round4(c.regla / s), Round4(c.perrisima / s), Round4(c.horny / s), Round4(c.nifunifa / s))
    else c
  }

  /** The value scoreForTarget returns for the given dates and target day. */
  function Score(dates: seq<Option<int>>, target: int): Option<Scores>
  {
    var obs := ValidDates(dates);
    if obs == [] then None else Some(ScoreOf(obs, target))
  }

  /** The scores for a non-empty list of observations: the normalised posterior mass of each
      category on the target day, counted from the last observation. */
  function ScoreOf(obs: seq<int>, target: int): Scores
    requires obs != []
  {
    PosteriorCycles(obs);
    Normalise4(Accumulate(PosteriorOf(obs).rows, target - obs[|obs| - 1]))
  }

  /** Every posterior row has a cycle length in 26..32 and a bleed length in 2..7. */
  lemma {:induction false} PosteriorCycles(obs: seq<int>)
    ensures PositiveCycles(PosteriorOf(obs).rows)
    ensures forall i :: 0 <= i < |PosteriorOf(obs).rows| ==> ValidCell(CellOf(PosteriorOf(obs).rows[i]))
  {
    if obs != [] {
      PosteriorShape(obs);
      GridShape();
      var rows := PosteriorOf(obs).rows;
      forall i | 0 <= i < |rows| ensures ValidCell(CellOf(rows[i])) {
        assert Grid()[i] in Grid();
      }
    }
  }

  /** The map/filter at the start of scoreForTarget. */
  method FilterDates(dates: seq<Option<int>>) returns (obs: seq<int>)
    ensures obs == ValidDates(dates)
  {
    obs := [];
    for i := 0 to |dates|
      invariant obs == ValidDates(dates[..i])
    {
      assert dates[..i + 1][..i] == dates[..i];
      if dates[i].Some? {
        obs := obs + [dates[i].value];
      }
    }
    assert dates[..|dates|] == dates;
  }

  /** One iteration of the loop over the rows: adds the row's weight to its category. */
  method AddRow(cats: Scores, row: PosteriorRow, d: int) returns (cats': Scores)
    requires row.K > 0
    ensures cats' == AddTo(cats, CategoryOf(row, d), row.wNorm)
  {
    var cd := TruncRem(row.r + d - 1, row.K) + 1;
    var desire := if 1 <= cd <= |row.sK| then Some(row.sK[cd - 1]) else None;
    if 1 <= cd && cd <= row.L {
      cats' := cats.(regla := cats.regla + row.wNorm);
    } else if desire.Some? && desire.value >= T_PERRISIMA {
      cats' := cats.(perrisima := cats.perrisima + row.wNorm);
    } else if desire.Some? && desire.value >= T_HORNY {
      cats' := cats.(horny := cats.horny + row.wNorm);
    } else {
      cats' := cats.(nifunifa := cats.nifunifa + row.wNorm);
    }
  }

  /** The loop over the rows of scoreForTarget. */
  method Tally(rows: seq<PosteriorRow>, d: int) returns (cats: Scores)
    requires PositiveCycles(rows)
    ensures cats == Accumulate(rows, d)
  {
    cats := Zero;
    for i := 0 to |rows|
      invariant cats == Accumulate(rows[..i], d)
    {
      assert rows[..i + 1][..i] == rows[..i];
      cats := AddRow(cats, rows[i], d);
    }
    assert rows[..|rows|] == rows;
  }

  /** scoreForTarget: filters the dates, builds the posterior, adds every row's weight to
      one category, then normalises and rounds. */
  method ScoreForTarget(dates: seq<Option<int>>, target: int) returns (score: Option<Scores>)
    ensures score == Score(dates, target)
  {
    if |dates| == 0 {
      return None;
    }
    var obs := FilterDates(dates);
    if |obs| == 0 {
      return None;
    }
    var cats := ScoreObservations(obs, target);
    score := Some(cats);
  }

  /** The body of scoreForTarget once some date has parsed. */
  method ScoreObservations(obs: seq<int>, target: int) returns (cats: Scores)
    requires obs != []
    ensures cats == ScoreOf(obs, target)
  {
    var post := BuildPosterior(obs);
    PosteriorOrigin(obs);
    var t0 := post.t0.value;
    var d := target - t0;
    PosteriorCycles(obs);
    cats := Tally(post.rows, d);
    cats := NormaliseInPlace(cats);
  }

  /** The closing step of scoreForTarget: divides each mass by the total and rounds it to four
      decimals, one key after the other, when the total is positive. */
  method NormaliseInPlace(cats: Scores) returns (n: Scores)
    ensures n == Normalise4(cats)
  {
    n := cats;
    var s := n.regla + n.perrisima + n.horny + n.nifunifa;
    if s > 0.0 {
      n := n.(regla := Round4(n.regla / s));
      n := n.(perrisima := Round4(n.perrisima / s));
      n := n.(horny := Round4(n.horny / s));
      n := n.(nifunifa := Round4(n.nifunifa / s));
    }
  }

  // ---------------------------------------------------------------------------------------
  // Properties of the score

  /** scoreForTarget returns null exactly when no date parses, the empty list included. */
  lemma ScoreNull(dates: seq<Option<int>>, target: int)
    ensures Score(dates, target).None? <==> forall i :: 0 <= i < |dates| ==> dates[i].None?
  {
    ValidDatesEmpty(dates);
  }

  /** A row counts as regla exactly when the likelihood would place that day in the row's
      bleed window. */
  lemma CategoryRegla(row: PosteriorRow, d: int)
    requires row.K > 0
    ensures CategoryOf(row, d) == Regla <==> InBleed(row.K, row.L, row.r, d)
  {
  }

  /** A day before the reference whose truncated remainder is negative has cycle day <= 0:
      `sK[cd - 1]` is undefined there, so the row counts as nifunifa. */
  lemma EarlierDayNifunifa(row: PosteriorRow, d: int)
    requires row.K > 0 && row.L >= 1
    requires row.r + d - 1 < 0 && (row.r + d - 1) % row.K != 0
    ensures CategoryOf(row, d) == Nifunifa
  {
    EarlierDays(row.K, row.L, row.r, d);
  }

  /** The four masses add up to the total normalised weight. */
  lemma {:induction false} AccumulateTotal(rows: seq<PosteriorRow>, d: int)
    requires PositiveCycles(rows)
    ensures Total(Accumulate(rows, d)) == TotalNorm(rows)
  {
    if rows != [] {
      AccumulateTotal(rows[..|rows| - 1], d);
    }
  }

  /** With non-negative weights every mass is non-negative, and rows whose curves stay below
      T_PERRISIMA never feed perrisima. */
  lemma {:induction false} AccumulateMasses(rows: seq<PosteriorRow>, d: int)
    requires PositiveCycles(rows)
    requires forall i :: 0 <= i < |rows| ==> rows[i].wNorm >= 0.0
    requires forall i, j :: 0 <= i < |rows| && 0 <= j < |rows[i].sK| ==> rows[i].sK[j] < T_PERRISIMA
    ensures forall k :: Value(Accumulate(rows, d), k) >= 0.0
    ensures Accumulate(rows, d).perrisima == 0.0
  {
    if rows != [] {
      var front, row := Accumulate(rows[..|rows| - 1], d), rows[|rows| - 1];
      AccumulateMasses(rows[..|rows| - 1], d);
      NotPerrisima(row, d);
      forall k
        ensures Value(Accumulate(rows, d), k) >= 0.0
      {
        if k == CategoryOf(row, d) {
          AddToValue(front, k, row.wNorm);
        } else {
          AddToOthers(front, CategoryOf(row, d), row.wNorm, k);
        }
      }
    }
  }

  lemma NotPerrisima(row: PosteriorRow, d: int)
    requires row.K > 0
    requires forall j :: 0 <= j < |row.sK| ==> row.sK[j] < T_PERRISIMA
    ensures CategoryOf(row, d) != Perrisima
  {
    var cd := CycleDay(row.K, row.r, d);
    if 1 <= cd <= |row.sK| {
      assert Desire(row.sK, cd).value == row.sK[cd - 1];
    }
  }

  /** Masses summing to 1 round to values in [0, 1] whose sum is within 4 x 0.00005 of 1. */
  lemma Normalise4Bounds(c: Scores)
    requires Total(c) == 1.0
    requires forall k :: Value(c, k) >= 0.0
    ensures forall k :: 0.0 <= Value(Normalise4(c), k) <= 1.0
    ensures 1.0 - 0.0002 < Total(Normalise4(c)) <= 1.0 + 0.0002
    ensures c.perrisima == 0.0 ==> Normalise4(c).perrisima == 0.0
  {
    assert Value(c, Regla) >= 0.0 && Value(c, Perrisima) >= 0.0;
    assert Value(c, Horny) >= 0.0 && Value(c, Nifunifa) >= 0.0;
    DivOne(c);
    RoundedSum(c.regla, c.perrisima, c.horny, c.nifunifa);
    Round4Zero();
  }

  lemma DivOne(c: Scores)
    requires Total(c) == 1.0
    ensures Normalise4(c) == Scores(Round4(c.regla), Round4(c.perrisima), Round4(c.horny), Round4(c.nifunifa))
  {
    var s := Total(c);
    assert c.regla / s == c.regla && c.perrisima / s == c.perrisima;
    assert c.horny / s == c.horny && c.nifunifa / s == c.nifunifa;
  }

  lemma RoundedSum(a: real, b: real, c: real, d: real)
    requires a >= 0.0 && b >= 0.0 && c >= 0.0 && d >= 0.0 && a + b + c + d == 1.0
    ensures 0.0 <= Round4(a) <= 1.0 && 0.0 <= Round4(b) <= 1.0
    ensures 0.0 <= Round4(c) <= 1.0 && 0.0 <= Round4(d) <= 1.0
    ensures 1.0 - 0.0002 < Round4(a) + Round4(b) + Round4(c) + Round4(d) <= 1.0 + 0.0002
  {
  }

  lemma Round4Zero()
    ensures Round4(0.0) == 0.0 && Round4(1.0) == 1.0
  {
    assert (0.5).Floor == 0;
    assert (10000.5).Floor == 10000;
  }

  /** Whenever a score is returned: perrisima is 0 (no curve value reaches 0.75), every
      value lies in [0, 1], and the four sum to 1 up to the rounding. */
  lemma {:induction false} ScoreBounds(dates: seq<Option<int>>, target: int)
    requires Score(dates, target).Some?
    ensures var p := Score(dates, target).value;
      p.perrisima == 0.0
      && (forall k :: 0.0 <= Value(p, k) <= 1.0)
      && 1.0 - 0.0002 < Total(p) <= 1.0 + 0.0002
  {
    var obs := ValidDates(dates);
    var d := target - obs[|obs| - 1];
    var rows := PosteriorOf(obs).rows;
    PosteriorShape(obs);
    PosteriorCycles(obs);
    PosteriorWeights(obs);
    forall i, j | 0 <= i < |rows| && 0 <= j < |rows[i].sK| ensures rows[i].sK[j] < T_PERRISIMA {
      CurveShape(rows[i].K);
    }
    AccumulateTotal(rows, d);
    AccumulateMasses(rows, d);
    Normalise4Bounds(Accumulate(rows, d));
  }

  /** Rows that all land in regla put the whole weight into regla. */
  lemma {:induction false} AccumulateAllRegla(rows: seq<PosteriorRow>, d: int)
    requires PositiveCycles(rows)
    requires forall i :: 0 <= i < |rows| ==> CategoryOf(rows[i], d) == Regla
    ensures Accumulate(rows, d) == Scores(TotalNorm(rows), 0.0, 0.0, 0.0)
  {
    if rows != [] {
      AccumulateAllRegla(rows[..|rows| - 1], d);
    }
  }

  /** On the reference day (d = 0) every valid row is on day r of its bleed. */
  lemma ReferenceDayRows(rows: seq<PosteriorRow>)
    requires forall i :: 0 <= i < |rows| ==> ValidCell(CellOf(rows[i]))
    ensures PositiveCycles(rows)
    ensures forall i :: 0 <= i < |rows| ==> CategoryOf(rows[i], 0) == Regla
  {
    forall i | 0 <= i < |rows| ensures rows[i].K > 0 && CategoryOf(rows[i], 0) == Regla {
      assert ValidCell(CellOf(rows[i]));
      assert CycleDay(rows[i].K, rows[i].r, 0) == rows[i].r;
    }
  }

  /** On the day of the reference observation every hypothesis is on day r of a bleed, so
      the score is regla 1 and 0 for the rest. */
  lemma {:induction false} ScoreOnReferenceDay(dates: seq<Option<int>>)
    requires ValidDates(dates) != []
    ensures Score(dates, ValidDates(dates)[|ValidDates(dates)| - 1]) == Some(Scores(1.0, 0.0, 0.0, 0.0))
  {
    var obs := ValidDates(dates);
    var rows := PosteriorOf(obs).rows;
    PosteriorCycles(obs);
    PosteriorWeights(obs);
    ReferenceDayRows(rows);
    AccumulateAllRegla(rows, 0);
    DivOne(Scores(1.0, 0.0, 0.0, 0.0));
    Round4Zero();
  }
}
