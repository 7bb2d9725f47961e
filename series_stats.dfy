/**
 * The statistics mes_features.py computes on one column of values: mean, sample standard
 * deviation (pandas' ddof = 1, NaN for a single value), extremes, the least-squares trend, the
 * capability index and the z-score outliers. Square roots come from `sqrt`; every property that
 * needs the true root assumes `IsSqrt(sqrt)`.
 */
module SeriesStats {
  import opened Wrappers
  import opened Seqs

  ghost predicate IsSqrt(sqrt: real -> real) {
    forall x :: x >= 0.0 ==> sqrt(x) >= 0.0 && sqrt(x) * sqrt(x) == x
  }

  function Identity(x: real): real { x }

  function Total(v: seq<real>): real {
    Sum(v, Identity)
  }

  function Mean(v: seq<real>): real
    requires |v| > 0
  {
    Total(v) / |v| as real
  }

  /** The product of two positive reals is positive. */
  lemma MulPos(x: real, y: real)
    requires x > 0.0 && y > 0.0
    ensures x * y > 0.0
  {
  }

  /** A square is non-negative, and positive unless its root is 0. */
  lemma Square(d: real)
    ensures d * d >= 0.0
    ensures d != 0.0 ==> d * d > 0.0
  {
    if d < 0.0 {
      MulPos(-d, -d);
      assert d * d == (-d) * (-d);
    } else if d > 0.0 {
      MulPos(d, d);
    }
  }

  lemma ZeroSquare(d: real)
    requires d == 0.0
    ensures d * d == 0.0
  {
  }

  /** x * c > 0 with c > 0 gives x > 0. */
  lemma PositiveFactor(x: real, c: real)
    requires c > 0.0 && x * c > 0.0
    ensures x > 0.0
  {
  }

  /** A non-negative root is positive exactly when its square is. */
  lemma RootPositive(s: real, w: real)
    requires s >= 0.0 && s * s == w
    ensures s > 0.0 <==> w > 0.0
  {
    if s > 0.0 {
      calc {
        w;
        s * s;
      > { MulPos(s, s); }
        0.0;
      }
    } else {
      assert s == 0.0;
      ZeroSquare(s);
    }
  }

  lemma MulNonneg(x: real, y: real)
    requires x >= 0.0 && y >= 0.0
    ensures x * y >= 0.0
  {
  }

  /** Multiplying by c >= 0 keeps a non-strict order. */
  lemma MulLe(a: real, b: real, c: real)
    requires c >= 0.0 && a <= b
    ensures a * c <= b * c
  {
    MulNonneg(b - a, c);
    calc {
      b * c - a * c;
      (b - a) * c;
    >= 0.0;
    }
  }

  /** Multiplying by c > 0 keeps a strict order. */
  lemma MulLess(a: real, b: real, c: real)
    requires c > 0.0 && a < b
    ensures a * c < b * c
  {
    MulPos(b - a, c);
    calc {
      b * c - a * c;
      (b - a) * c;
    > 0.0;
    }
  }

  /** a * c < b * c with c > 0 gives a < b. */
  lemma CancelPositive(a: real, b: real, c: real)
    requires c > 0.0 && a * c < b * c
    ensures a < b
  {
    assert (b - a) * c == b * c - a * c;
    PositiveFactor(b - a, c);
  }

  /** The squared distance from `m`, as a term function. */
  function SquareFrom(m: real): real -> real {
    x => (x - m) * (x - m)
  }

  lemma SquareFromApply(m: real, x: real)
    ensures SquareFrom(m)(x) == (x - m) * (x - m)
  {
  }

  /** The sum of squared deviations from the mean. */
  function SquaredDeviations(v: seq<real>): (r: real)
    requires |v| > 0
    ensures r >= 0.0
  {
    var m := Mean(v);
    forall i | 0 <= i < |v| ensures SquareFrom(m)(v[i]) >= 0.0 { Square(v[i] - m); }
    SumNonnegative(v, SquareFrom(m));
    Sum(v, SquareFrom(m))
  }

  lemma {:induction false} SumNonnegative<T>(s: seq<T>, f: T -> real)
    requires forall i :: 0 <= i < |s| ==> f(s[i]) >= 0.0
    ensures Sum(s, f) >= 0.0
    decreases |s|
  {
    if |s| > 0 {
      var p := s[..|s| - 1];
      assert forall j :: 0 <= j < |p| ==> p[j] == s[j];
      SumNonnegative(p, f);
    }
  }

  function SampleVariance(v: seq<real>): (r: real)
    requires |v| >= 2
    ensures r >= 0.0
  {
    SquaredDeviations(v) / (|v| - 1) as real
  }

  /** `Series.std()`: None stands for the NaN of a single value. */
  function Std(v: seq<real>, sqrt: real -> real): Option<real> {
    if |v| >= 2 then Some(sqrt(SampleVariance(v))) else None
  }

  function MinOf(v: seq<real>): (r: real)
    requires |v| > 0
    ensures r in v && forall i :: 0 <= i < |v| ==> r <= v[i]
    decreases |v|
  {
    if |v| == 1 then v[0]
    else
      var rest := MinOf(v[1..]);
      assert forall i :: 1 <= i < |v| ==> v[i] == v[1..][i - 1];
      if v[0] <= rest then v[0] else rest
  }

  function MaxOf(v: seq<real>): (r: real)
    requires |v| > 0
    ensures r in v && forall i :: 0 <= i < |v| ==> r >= v[i]
    decreases |v|
  {
    if |v| == 1 then v[0]
    else
      var rest := MaxOf(v[1..]);
      assert forall i :: 1 <= i < |v| ==> v[i] == v[1..][i - 1];
      if v[0] >= rest then v[0] else rest
  }

  lemma DivideBounds(t: real, n: real, lo: real, hi: real)
    requires n > 0.0 && lo * n <= t <= hi * n
    ensures lo <= t / n <= hi
  {
    assert (t / n) * n == t;
  }

  lemma TotalBounds(v: seq<real>, lo: real, hi: real)
    requires forall i :: 0 <= i < |v| ==> lo <= v[i] <= hi
    ensures lo * |v| as real <= Total(v) <= hi * |v| as real
  {
    SumBounds(v, Identity, lo, hi);
  }

  /** Values within [lo, hi] have their mean within [lo, hi]. */
  lemma MeanBounds(v: seq<real>, lo: real, hi: real)
    requires |v| > 0 && forall i :: 0 <= i < |v| ==> lo <= v[i] <= hi
    ensures lo <= Mean(v) <= hi
  {
    TotalBounds(v, lo, hi);
    DivideBounds(Total(v), |v| as real, lo, hi);
  }

  /** The mean lies between the extremes. */
  lemma MeanBetweenExtremes(v: seq<real>)
    requires |v| > 0
    ensures MinOf(v) <= Mean(v) <= MaxOf(v)
  {
    MeanBounds(v, MinOf(v), MaxOf(v));
  }

  /** A zero sum of squared deviations means every value equals the mean, and conversely. */
  lemma ZeroDeviationIffConstant(v: seq<real>)
    requires |v| > 0
    ensures SquaredDeviations(v) == 0.0 <==> forall i :: 0 <= i < |v| ==> v[i] == Mean(v)
  {
    if forall i :: 0 <= i < |v| ==> v[i] == Mean(v) {
      ConstantZeroDeviation(v);
    } else {
      var i :| 0 <= i < |v| && v[i] != Mean(v);
      DeviationPositive(v, i);
    }
  }

  /** A value at the mean has no squared deviation. */
  lemma AtMeanZero(m: real, x: real)
    requires x == m
    ensures SquareFrom(m)(x) == 0.0
  {
    SquareFromApply(m, x);
    ZeroSquare(x - m);
  }

  lemma ConstantZeroDeviation(v: seq<real>)
    requires |v| > 0
    requires forall i :: 0 <= i < |v| ==> v[i] == Mean(v)
    ensures SquaredDeviations(v) == 0.0
  {
    var m := Mean(v);
    var f := SquareFrom(m);
    forall i | 0 <= i < |v| ensures 0.0 <= f(v[i]) <= 0.0 {
      AtMeanZero(m, v[i]);
    }
    SumBounds(v, f, 0.0, 0.0);
    assert SquaredDeviations(v) == Sum(v, f);
  }

  /** One value away from the mean makes the sum of squared deviations positive. */
  lemma DeviationPositive(v: seq<real>, i: nat)
    requires i < |v| && v[i] != Mean(v)
    ensures SquaredDeviations(v) > 0.0
  {
    var m := Mean(v);
    var f := SquareFrom(m);
    forall j | 0 <= j < |v| ensures f(v[j]) >= 0.0 {
      SquareFromApply(m, v[j]);
      Square(v[j] - m);
    }
    SquarePositiveTerm(m, v[i]);
    SumPositiveTerm(v, f, i);
    assert SquaredDeviations(v) == Sum(v, f);
  }

  lemma SquarePositiveTerm(m: real, x: real)
    requires x != m
    ensures SquareFrom(m)(x) > 0.0
  {
    var d := x - m;
    calc {
      SquareFrom(m)(x);
      d * d;
    > { Square(d); }
      0.0;
    }
  }

  /** A sum of non-negative terms with one positive term is positive. */
  lemma {:induction false} SumPositiveTerm<T>(s: seq<T>, f: T -> real, i: nat)
    requires forall j :: 0 <= j < |s| ==> f(s[j]) >= 0.0
    requires i < |s| && f(s[i]) > 0.0
    ensures Sum(s, f) > 0.0
    decreases |s|
  {
    var p := s[..|s| - 1];
    assert forall j :: 0 <= j < |p| ==> p[j] == s[j];
    SumNonnegative(p, f);
    if i < |s| - 1 {
      SumPositiveTerm(p, f, i);
    }
  }

  // ---------------------------------------------------------------- trend

  const TrendTooShort := "数据不足"
  const TrendRising := "上升趋势 \U{2b06}\U{fe0f}"
  const TrendFalling := "下降趋势 \U{2b07}\U{fe0f}"
  const TrendStable := "稳定趋势 \U{27a1}\U{fe0f}"

  /** f(0) + ... + f(n - 1). */
  function IndexSum(n: nat, f: nat -> real): real
    decreases n
  {
    if n == 0 then 0.0 else IndexSum(n - 1, f) + f(n - 1)
  }

  function At(v: seq<real>, i: nat): real {
    if i < |v| then v[i] else 0.0
  }

  function CentredSquare(xbar: real): nat -> real {
    (i: nat) => (i as real - xbar) * (i as real - xbar)
  }

  function CentredProduct(v: seq<real>, xbar: real, ybar: real): nat -> real {
    (i: nat) => (i as real - xbar) * (At(v, i) - ybar)
  }

  /** The centred sum of squares of the positions 0..n-1. */
  function Sxx(n: nat): (r: real)
    ensures n >= 2 ==> r > 0.0
  {
    var xbar := (n - 1) as real / 2.0;
    forall i: nat ensures CentredSquare(xbar)(i) >= 0.0 { Square(i as real - xbar); }
    IndexSumPositive(n, CentredSquare(xbar));
    assert n >= 2 ==> CentredSquare(xbar)(0) > 0.0 by {
      if n >= 2 { Square(0.0 - xbar); }
    }
    IndexSum(n, CentredSquare(xbar))
  }

  /** Non-negative terms sum to at least the first one. */
  lemma {:induction false} IndexSumPositive(n: nat, f: nat -> real)
    requires forall i: nat :: f(i) >= 0.0
    ensures IndexSum(n, f) >= 0.0
    ensures n >= 1 ==> IndexSum(n, f) >= f(0)
    decreases n
  {
    if n > 0 {
      IndexSumPositive(n - 1, f);
    }
  }

  function Sxy(v: seq<real>): real
    requires |v| > 0
  {
    IndexSum(|v|, CentredProduct(v, (|v| - 1) as real / 2.0, Mean(v)))
  }

  /** The slope of `np.polyfit(range(n), v, 1)`: the least-squares line through the points. */
  function Slope(v: seq<real>): real
    requires |v| >= 2
  {
    Sxy(v) / Sxx(|v|)
  }

  /** `_calculate_trend`: a slope beyond ±0.05 rises or falls; fewer than three values are too few. */
  function Trend(v: seq<real>): (t: string)
    ensures t in {TrendTooShort, TrendRising, TrendFalling, TrendStable}
    ensures t == TrendTooShort <==> |v| < 3
    ensures |v| >= 3 ==> (t == TrendRising <==> Slope(v) > 0.05) && (t == TrendFalling <==> Slope(v) < -0.05)
  {
    if |v| < 3 then TrendTooShort
    else
      var s := Slope(v);
      if s > 0.05 then TrendRising else if s < -0.05 then TrendFalling else TrendStable
  }

  lemma {:induction false} IndexSumZero(n: nat, f: nat -> real)
    requires forall i: nat :: i < n ==> f(i) == 0.0
    ensures IndexSum(n, f) == 0.0
    decreases n
  {
    if n > 0 {
      IndexSumZero(n - 1, f);
    }
  }

  /** A constant series has slope 0 and, from three values on, is stable. */
  lemma ConstantSeriesStable(v: seq<real>)
    requires |v| >= 2 && forall i :: 0 <= i < |v| ==> v[i] == v[0]
    ensures Slope(v) == 0.0
    ensures |v| >= 3 ==> Trend(v) == TrendStable
  {
    var m := Mean(v);
    SumBounds(v, Identity, v[0], v[0]);
    assert m == v[0];
    var xbar := (|v| - 1) as real / 2.0;
    IndexSumZero(|v|, CentredProduct(v, xbar, m));
  }

  /** A scaled term gives a scaled sum. */
  lemma {:induction false} IndexSumScale(n: nat, f: nat -> real, g: nat -> real, b: real)
    requires forall i: nat :: i < n ==> f(i) == b * g(i)
    ensures IndexSum(n, f) == b * IndexSum(n, g)
    decreases n
  {
    if n > 0 {
      IndexSumScale(n - 1, f, g, b);
    }
  }

  /** Twice the total of the values a + b·i for i < n is n(2a + b(n - 1)). */
  lemma {:induction false} LinearTotal(v: seq<real>, a: real, b: real)
    requires forall i :: 0 <= i < |v| ==> v[i] == a + b * i as real
    ensures 2.0 * Total(v) == |v| as real * (2.0 * a + b * (|v| - 1) as real)
    decreases |v|
  {
    if |v| > 0 {
      var n := |v| as real;
      var p := v[..|v| - 1];
      assert forall i :: 0 <= i < |p| ==> p[i] == v[i];
      LinearTotal(p, a, b);
      assert Total(v) == Total(p) + v[|v| - 1];
      assert 2.0 * Total(p) == (n - 1.0) * (2.0 * a + b * (n - 2.0)) by {
        if |p| == 0 { } else { assert (|p| - 1) as real == n - 2.0; }
      }
      assert v[|v| - 1] == a + b * (n - 1.0);
    }
  }

  /** The mean of the values a + b·i for i < n is the value at the middle position (n - 1)/2. */
  lemma LinearMean(v: seq<real>, a: real, b: real)
    requires |v| > 0 && forall i :: 0 <= i < |v| ==> v[i] == a + b * i as real
    ensures Mean(v) == a + b * ((|v| - 1) as real / 2.0)
  {
    var n := |v| as real;
    var c := a + b * ((|v| - 1) as real / 2.0);
    LinearTotal(v, a, b);
    assert Total(v) == n * c;
    assert Total(v) / n == c;
  }

  /** Centring a + b·i on its mean leaves b times the centred position. */
  lemma LinearCentred(v: seq<real>, a: real, b: real, i: nat)
    requires |v| > 0 && forall i :: 0 <= i < |v| ==> v[i] == a + b * i as real
    requires i < |v|
    ensures CentredProduct(v, (|v| - 1) as real / 2.0, Mean(v))(i) == b * CentredSquare((|v| - 1) as real / 2.0)(i)
  {
    var xbar := (|v| - 1) as real / 2.0;
    var d := i as real - xbar;
    LinearMean(v, a, b);
    assert At(v, i) - Mean(v) == b * d;
    assert d * (b * d) == b * (d * d);
  }

  /** The least-squares slope of the points a + b·i is b; trend labels then follow b. */
  lemma LinearSeriesSlope(v: seq<real>, a: real, b: real)
    requires |v| >= 2 && forall i :: 0 <= i < |v| ==> v[i] == a + b * i as real
    ensures Slope(v) == b
    ensures |v| >= 3 && b > 0.05 ==> Trend(v) == TrendRising
    ensures |v| >= 3 && b < -0.05 ==> Trend(v) == TrendFalling
  {
    LinearSxy(v, a, b);
    var sxx := Sxx(|v|);
    assert sxx > 0.0;
    assert Slope(v) == (b * sxx) / sxx;
  }

  /** The centred cross sum of the points a + b·i is b times the centred sum of squares. */
  lemma LinearSxy(v: seq<real>, a: real, b: real)
    requires |v| >= 2 && forall i :: 0 <= i < |v| ==> v[i] == a + b * i as real
    ensures Sxy(v) == b * Sxx(|v|)
  {
    var xbar := (|v| - 1) as real / 2.0;
    var f := CentredProduct(v, xbar, Mean(v));
    var g := CentredSquare(xbar);
    forall i: nat | i < |v| ensures f(i) == b * g(i) {
      LinearCentred(v, a, b, i);
    }
    IndexSumScale(|v|, f, g, b);
  }

  // ---------------------------------------------------------------- capability and outliers

  /**
   * `_calculate_cpk` with specification limits at mean ± 3σ: 0 for fewer than two values or
   * σ = 0, otherwise min(cpu, cpl).
   */
  function Cpk(v: seq<real>, sqrt: real -> real): (c: real)
    ensures |v| < 2 ==> c == 0.0
    ensures |v| >= 2 && sqrt(SampleVariance(v)) > 0.0 ==> c == 1.0
    ensures |v| >= 2 && sqrt(SampleVariance(v)) <= 0.0 ==> c == 0.0
  {
    if |v| < 2 then 0.0
    else
      var m := Mean(v);
      var s := sqrt(SampleVariance(v));
      if s == 0.0 then 0.0
      else
        var usl := m + 3.0 * s;
        var lsl := m - 3.0 * s;
        assert s > 0.0 ==> (usl - m) / (3.0 * s) == 1.0 && (m - lsl) / (3.0 * s) == 1.0;
        var cpu := if s > 0.0 then (usl - m) / (3.0 * s) else 0.0;
        var cpl := if s > 0.0 then (m - lsl) / (3.0 * s) else 0.0;
        if cpu <= cpl then cpu else cpl
  }

  /** With limits drawn at mean ± 3σ, Cpk is 1 whenever the values vary, and 0 otherwise. */
  lemma CpkIsOneOrZero(v: seq<real>, sqrt: real -> real)
    requires IsSqrt(sqrt)
    ensures Cpk(v, sqrt) == (if |v| >= 2 && SampleVariance(v) > 0.0 then 1.0 else 0.0)
  {
    if |v| >= 2 {
      var w := SampleVariance(v);
      var s := sqrt(w);
      RootPositive(s, w);
      if s > 0.0 {
        var m := Mean(v);
        assert ((m + 3.0 * s) - m) / (3.0 * s) == 1.0 by {
          assert (m + 3.0 * s) - m == 3.0 * s;
        }
        assert (m - (m - 3.0 * s)) / (3.0 * s) == 1.0 by {
          assert m - (m - 3.0 * s) == 3.0 * s;
        }
      }
    }
  }

  /** |z| > 2 at the column's mean `m` and σ `s`. */
  predicate IsOutlier(x: real, m: real, s: real) {
    s != 0.0 && Abs((x - m) / s) > 2.0
  }

  function OutlierTest(m: real, s: real): real -> bool {
    x => IsOutlier(x, m, s)
  }

  lemma OutlierTestApply(m: real, s: real, x: real)
    requires s != 0.0
    ensures OutlierTest(m, s)(x) <==> Abs((x - m) / s) > 2.0
  {
  }

  /** `_detect_outliers`: the positions whose z-score exceeds 2; none below three values or for σ = 0. */
  function Outliers(v: seq<real>, sqrt: real -> real): seq<nat> {
    if |v| < 3 then []
    else
      var m := Mean(v);
      var s := sqrt(SampleVariance(v));
      if s == 0.0 then [] else IndicesWhere(v, OutlierTest(m, s))
  }

  /** The loop of `_detect_outliers`. */
  method DetectOutliers(v: seq<real>, sqrt: real -> real) returns (outliers: seq<nat>)
    ensures outliers == Outliers(v, sqrt)
  {
    if |v| < 3 {
      return [];
    }
    var m := Mean(v);
    var s := sqrt(SampleVariance(v));
    if s == 0.0 {
      return [];
    }
    outliers := CollectOutliers(v, m, s);
  }

  /** The positions whose z-score against mean `m` and σ `s` exceeds 2, in order. */
  method CollectOutliers(v: seq<real>, m: real, s: real) returns (outliers: seq<nat>)
    requires s != 0.0
    ensures outliers == IndicesWhere(v, OutlierTest(m, s))
  {
    outliers := [];
    for idx := 0 to |v|
      invariant outliers == IndicesWhere(v[..idx], OutlierTest(m, s))
    {
      IndicesWhereStep(v, OutlierTest(m, s), idx);
      var x := v[idx];
      OutlierTestApply(m, s, x);
      var z := Abs((x - m) / s);
      if z > 2.0 {
        outliers := outliers + [idx];
      }
    }
    assert v[..|v|] == v;
  }

  /** c added up n times. */
  function Times(c: real, n: nat): real {
    if n == 0 then 0.0 else Times(c, n - 1) + c
  }

  lemma {:induction false} TimesIsProduct(c: real, n: nat)
    ensures Times(c, n) == c * n as real
  {
    if n > 0 {
      TimesIsProduct(c, n - 1);
      assert c * n as real == c * (n - 1) as real + c;
    }
  }

  /** Terms above `c` where `p` holds, non-negative elsewhere: the sum exceeds c times the count when the count is positive. */
  lemma {:induction false} SumOverCount<T>(s: seq<T>, f: T -> real, p: T -> bool, c: real)
    requires forall i :: 0 <= i < |s| ==> f(s[i]) >= 0.0
    requires forall i :: 0 <= i < |s| && p(s[i]) ==> f(s[i]) > c
    ensures Sum(s, f) >= Times(c, Count(s, p))
    ensures Count(s, p) > 0 ==> Sum(s, f) > Times(c, Count(s, p))
    decreases |s|
  {
    if |s| > 0 {
      var q := s[..|s| - 1];
      assert forall i :: 0 <= i < |q| ==> q[i] == s[i];
      SumOverCount(q, f, p, c);
      assert s[..|s| - 1] == q;
    }
  }

  /** Squaring is strictly monotone on the non-negative reals. */
  lemma SquareLess(a: real, b: real)
    requires 0.0 <= a < b
    ensures a * a < b * b
  {
    MulPos(b - a, b + a);
    calc {
      b * b - a * a;
      (b - a) * (b + a);
    > 0.0;
    }
  }

  /** |x - m| / s > 2 with s > 0 means (x - m)² > 4s². */
  lemma OutlierSquare(x: real, m: real, s: real)
    requires s > 0.0 && IsOutlier(x, m, s)
    ensures (x - m) * (x - m) > 4.0 * (s * s)
  {
    var d := Abs(x - m);
    var q := (x - m) / s;
    var a := Abs(q);
    assert x - m == q * s;
    assert a > 2.0;
    var t := 2.0 * s;
    MulLess(2.0, a, s);
    calc {
      d;
      { if q < 0.0 { assert x - m < 0.0; } else { assert x - m >= 0.0; } }
      a * s;
    >
      2.0 * s;
    }
    calc {
      (x - m) * (x - m);
      d * d;
    > { SquareLess(t, d); }
      t * t;
      4.0 * (s * s);
    }
  }

  /** A total above 4c per counted term that equals n1 * c, with c > 0, means 4 * k < n1. */
  lemma FewerThanQuarter(k: real, n1: real, c: real, b: real, total: real)
    requires c > 0.0 && b == 4.0 * c && total > b * k && total == n1 * c
    ensures 4.0 * k < n1
  {
    calc {
      (4.0 * k) * c;
      (4.0 * c) * k;
      b * k;
    < total;
      n1 * c;
    }
    CancelPositive(4.0 * k, n1, c);
  }

  /** (t / n) * n == t. */
  lemma DivideMultiply(t: real, n: real)
    requires n > 0.0
    ensures (t / n) * n == t
  {
  }

  /** Each outlier's squared deviation exceeds 4s². */
  lemma OutlierTermsAbove(v: seq<real>, m: real, s: real, b: real)
    requires s > 0.0 && b == 4.0 * (s * s)
    ensures forall i :: 0 <= i < |v| && OutlierTest(m, s)(v[i]) ==> SquareFrom(m)(v[i]) > b
  {
    forall i | 0 <= i < |v| && OutlierTest(m, s)(v[i]) ensures SquareFrom(m)(v[i]) > b {
      OutlierSquare(v[i], m, s);
    }
  }

  /** No squared deviation is negative. */
  lemma SquaresNonnegative(v: seq<real>, m: real)
    ensures forall i :: 0 <= i < |v| ==> SquareFrom(m)(v[i]) >= 0.0
  {
    forall i | 0 <= i < |v| ensures SquareFrom(m)(v[i]) >= 0.0 { Square(v[i] - m); }
  }

  /** Each outlier contributes more than 4s² to the squared deviations, and no term is negative. */
  lemma OutlierTermsSum(v: seq<real>, m: real, s: real, b: real, k: real, total: real)
    requires s > 0.0 && b == 4.0 * (s * s)
    requires k == Count(v, OutlierTest(m, s)) as real && total == Sum(v, SquareFrom(m))
    ensures k > 0.0 ==> total > b * k
  {
    OutlierTermsAbove(v, m, s, b);
    SquaresNonnegative(v, m);
    SumOverCount(v, SquareFrom(m), OutlierTest(m, s), b);
    TimesIsProduct(b, Count(v, OutlierTest(m, s)));
  }

  /** The squared z-scores of a column sum to n - 1, so fewer than (n - 1) / 4 of them exceed 4. */
  lemma OutliersBelowQuarter(v: seq<real>, m: real, s: real, w: real)
    requires |v| >= 2 && m == Mean(v) && w == SampleVariance(v)
    requires s > 0.0 && s * s == w
    ensures 4 * Count(v, OutlierTest(m, s)) < |v| - 1
  {
    var n1 := (|v| - 1) as real;
    var total := Sum(v, SquareFrom(m));
    var k := Count(v, OutlierTest(m, s));
    var b := 4.0 * (s * s);
    VarianceTimesCount(v, m, w, n1, total);
    OutlierTermsSum(v, m, s, b, k as real, total);
    if k > 0 {
      QuarterBound(k as real, n1, s, w, b, total);
    }
  }

  /** The arithmetic of the bound: total = n1 * s², and total > 4s² * k with k > 0, give 4k < n1. */
  lemma QuarterBound(k: real, n1: real, s: real, w: real, b: real, total: real)
    requires s > 0.0 && s * s == w && b == 4.0 * (s * s)
    requires k > 0.0 && total > b * k && total == n1 * w
    ensures 4.0 * k < n1
  {
    var c := s * s;
    MulPos(s, s);
    FewerThanQuarter(k, n1, c, b, total);
  }

  /** The sample variance times n - 1 gives back the sum of squared deviations. */
  lemma VarianceTimesCount(v: seq<real>, m: real, w: real, n1: real, total: real)
    requires |v| >= 2 && m == Mean(v) && w == SampleVariance(v)
    requires n1 == (|v| - 1) as real && total == Sum(v, SquareFrom(m))
    ensures total == n1 * w
  {
    assert total == SquaredDeviations(v);
    assert w == total / n1;
    DivideMultiply(total, n1);
    assert (total / n1) * n1 == n1 * w;
  }

  /**
   * Since the squared z-scores sum to n - 1, fewer than (n - 1) / 4 values can be outliers; in
   * particular a column of at most five values never has one.
   */
  lemma OutlierBound(v: seq<real>, sqrt: real -> real)
    requires IsSqrt(sqrt)
    ensures 4 * |Outliers(v, sqrt)| < Max(|v| - 1, 1)
  {
    if |v| >= 3 {
      var m := Mean(v);
      var w := SampleVariance(v);
      var s := sqrt(w);
      if s != 0.0 {
        OutliersBelowQuarter(v, m, s, w);
      }
    }
  }
}
