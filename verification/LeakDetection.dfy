/** The memory-leak test of scripts/analyze_metrics.py: a least-squares slope
    compared with a threshold. Numbers are exact reals. */
module LeakDetection {

  datatype Snapshot = Snapshot(elapsedSeconds: real, totalMemoryMb: real)

  type Reals = seq<real>

  function Times(snapshots: seq<Snapshot>): (ts: Reals)
    ensures |ts| == |snapshots|
  {
    seq(|snapshots|, i requires 0 <= i < |snapshots| => snapshots[i].elapsedSeconds / 3600.0)
  }

  function Memory(snapshots: seq<Snapshot>): (ms: Reals)
    ensures |ms| == |snapshots|
  {
    seq(|snapshots|, i requires 0 <= i < |snapshots| => snapshots[i].totalMemoryMb)
  }

  function Sum(xs: Reals): real {
    if xs == [] then 0.0 else Sum(xs[..|xs| - 1]) + xs[|xs| - 1]
  }

  function Mean(xs: Reals): real
    requires xs != []
  {
    Sum(xs) / |xs| as real
  }

  /** The deviations of the values from `x0`. */
  function Deviations(xs: Reals, x0: real): Reals {
    seq(|xs|, i requires 0 <= i < |xs| => xs[i] - x0)
  }

  /** A product, named so that proofs about sums can hide it. */
  function Mul(x: real, y: real): real {
    x * y
  }

  function Products(us: Reals, vs: Reals): Reals
    requires |us| == |vs|
  {
    seq(|us|, i requires 0 <= i < |us| => Mul(us[i], vs[i]))
  }

  function Covariance(ts: Reals, ms: Reals): real
    requires |ts| == |ms| > 0
  {
    Sum(Products(Deviations(ts, Mean(ts)), Deviations(ms, Mean(ms))))
  }

  function Variance(ts: Reals): real
    requires ts != []
  {
    Sum(Products(Deviations(ts, Mean(ts)), Deviations(ts, Mean(ts))))
  }

  function Slope(ts: Reals, ms: Reals): real
    requires |ts| == |ms| > 0 && Variance(ts) != 0.0
  {
    Covariance(ts, ms) / Variance(ts)
  }

  /** The flag and the growth rate in MB per hour, before rounding. */
  function DetectMemoryLeak(snapshots: seq<Snapshot>, threshold: real): (bool, real) {
    if |snapshots| < 2 then (false, 0.0)
    else
      var ts, ms := Times(snapshots), Memory(snapshots);
      if Variance(ts) == 0.0 then (false, 0.0) else (Slope(ts, ms) > threshold, Slope(ts, ms))
  }

  /** The residuals of the line `a + b * t`, and the sum of their squares. */
  function Residuals(ts: Reals, ms: Reals, a: real, b: real): Reals
    requires |ts| == |ms|
  {
    seq(|ts|, i requires 0 <= i < |ts| => ms[i] - (a + Mul(b, ts[i])))
  }

  function SquaredError(ts: Reals, ms: Reals, a: real, b: real): real
    requires |ts| == |ms|
  {
    Sum(Products(Residuals(ts, ms, a, b), Residuals(ts, ms, a, b)))
  }

  // ------------------------------------------------------------ sums of vectors

  function Plus(xs: Reals, ys: Reals): Reals
    requires |xs| == |ys|
  {
    seq(|xs|, i requires 0 <= i < |xs| => xs[i] + ys[i])
  }

  function Scaled(k: real, xs: Reals): Reals {
    seq(|xs|, i requires 0 <= i < |xs| => Mul(k, xs[i]))
  }

  function Constant(k: real, n: nat): Reals {
    seq(n, _ => k)
  }

  lemma {:induction false} SumPlus(xs: Reals, ys: Reals)
    requires |xs| == |ys|
    ensures Sum(Plus(xs, ys)) == Sum(xs) + Sum(ys)
  {
    if xs != [] {
      var n := |xs| - 1;
      SumPlus(xs[..n], ys[..n]);
      assert Plus(xs, ys)[..n] == Plus(xs[..n], ys[..n]);
    }
  }

  lemma {:induction false} SumScaled(k: real, xs: Reals)
    ensures Sum(Scaled(k, xs)) == Mul(k, Sum(xs))
  {
    if xs != [] {
      hide Mul;
      var n := |xs| - 1;
      SumScaled(k, xs[..n]);
      assert Scaled(k, xs)[..n] == Scaled(k, xs[..n]);
      Distribute(k, Sum(xs[..n]), xs[n]);
    }
  }

  lemma Distribute(k: real, x: real, y: real)
    ensures Mul(k, x + y) == Mul(k, x) + Mul(k, y)
  {
  }

  lemma {:induction false} SumConstant(k: real, n: nat)
    ensures Sum(Constant(k, n)) == Mul(k, n as real)
  {
    if n > 0 {
      hide Mul;
      SumConstant(k, n - 1);
      assert Constant(k, n)[..n - 1] == Constant(k, n - 1);
      Distribute(k, (n - 1) as real, 1.0);
      MulUnits(k);
    } else {
      MulUnits(k);
    }
  }

  lemma MulUnits(k: real)
    ensures Mul(k, 1.0) == k && Mul(k, 0.0) == 0.0 == Mul(0.0, k)
  {
  }

  lemma MeanTimesCount(xs: Reals)
    requires xs != []
    ensures Mul(Mean(xs), |xs| as real) == Sum(xs)
  {
  }

  lemma {:induction false} DeviationsSum(xs: Reals, x0: real)
    ensures Sum(Deviations(xs, x0)) + Sum(Constant(x0, |xs|)) == Sum(xs)
  {
    if xs != [] {
      var n := |xs| - 1;
      DeviationsSum(xs[..n], x0);
      assert Deviations(xs, x0)[..n] == Deviations(xs[..n], x0);
      assert Constant(x0, |xs|)[..n] == Constant(x0, n);
    }
  }

  lemma MeanCentres(xs: Reals)
    requires xs != []
    ensures Sum(Deviations(xs, Mean(xs))) == 0.0
  {
    hide Mul;
    DeviationsSum(xs, Mean(xs));
    SumConstant(Mean(xs), |xs|);
    MeanTimesCount(xs);
  }

  predicate AllNonNegative(xs: Reals) {
    forall i :: 0 <= i < |xs| ==> xs[i] >= 0.0
  }

  lemma SquareNonNegative(x: real)
    ensures Mul(x, x) >= 0.0 && (x != 0.0 ==> Mul(x, x) > 0.0)
  {
    if x > 0.0 {
      ProductSign(x, x);
    } else if x < 0.0 {
      ProductSign(-x, -x);
    }
  }

  lemma {:induction false} SumBoundsTerms(xs: Reals)
    requires AllNonNegative(xs)
    ensures Sum(xs) >= 0.0 && forall i :: 0 <= i < |xs| ==> Sum(xs) >= xs[i]
  {
    if xs != [] {
      var n := |xs| - 1;
      SumBoundsTerms(xs[..n]);
      assert forall i :: 0 <= i < n ==> xs[..n][i] == xs[i];
    }
  }

  lemma SquaresSum(us: Reals)
    ensures Sum(Products(us, us)) >= 0.0
    ensures forall i :: 0 <= i < |us| && us[i] != 0.0 ==> Sum(Products(us, us)) > 0.0
  {
    hide Mul;
    var ps := Products(us, us);
    forall i | 0 <= i < |us| ensures ps[i] >= 0.0 && (us[i] != 0.0 ==> ps[i] > 0.0) {
      SquareNonNegative(us[i]);
    }
    SumBoundsTerms(ps);
  }

  // ------------------------------------------------------ the least-squares line

  /** One squared residual, expanded about a centre. */
  lemma SquareExpands(u: real, v: real, b: real, d: real, e: real)
    requires e == v - Mul(b, u) - d
    ensures Mul(e, e) == Mul(v, v) + (Mul(-2.0 * b, Mul(u, v)) + (Mul(b * b, Mul(u, u))
                         + (Mul(-2.0 * d, v) + (Mul(2.0 * b * d, u) + d * d))))
  {
  }

  function Combination(vv: Reals, uv: Reals, uu: Reals, v: Reals, u: Reals, c1: real, c2: real, c3: real, c4: real,
                       c5: real): Reals
    requires |vv| == |uv| == |uu| == |v| == |u|
  {
    Plus(vv, Plus(Scaled(c1, uv), Plus(Scaled(c2, uu), Plus(Scaled(c3, v), Plus(Scaled(c4, u), Constant(c5, |u|))))))
  }

  lemma PlusScaledSum(k: real, xs: Reals, ys: Reals)
    requires |xs| == |ys|
    ensures Sum(Plus(Scaled(k, xs), ys)) == Mul(k, Sum(xs)) + Sum(ys)
  {
    SumPlus(Scaled(k, xs), ys);
    SumScaled(k, xs);
  }

  lemma CentredSum(vv: Reals, uv: Reals, uu: Reals, v: Reals, u: Reals, c1: real, c2: real, c3: real, c4: real,
                       c5: real)
    requires |vv| == |uv| == |uu| == |v| == |u| && Sum(u) == Sum(v) == 0.0
    ensures Sum(Combination(vv, uv, uu, v, u, c1, c2, c3, c4, c5))
         == Sum(vv) + (Mul(c1, Sum(uv)) + (Mul(c2, Sum(uu)) + Mul(c5, |u| as real)))
  {
    hide Mul;
    var s5 := Constant(c5, |u|);
    var s4 := Plus(Scaled(c4, u), s5);
    var s3 := Plus(Scaled(c3, v), s4);
    var s2 := Plus(Scaled(c2, uu), s3);
    SumConstant(c5, |u|);
    PlusScaledSum(c4, u, s5);
    PlusScaledSum(c3, v, s4);
    PlusScaledSum(c2, uu, s3);
    PlusScaledSum(c1, uv, s2);
    SumPlus(vv, Plus(Scaled(c1, uv), s2));
    MulUnits(c3);
    MulUnits(c4);
  }

  lemma SquaredResidualsCombine(ts: Reals, ms: Reals, t0: real, m0: real, a: real, b: real, d: real)
    requires |ts| == |ms| && a == m0 - Mul(b, t0) + d
    ensures var us, vs, es := Deviations(ts, t0), Deviations(ms, m0), Residuals(ts, ms, a, b);
            Products(es, es) ==
              Combination(Products(vs, vs), Products(us, vs), Products(us, us), vs, us,
                          -2.0 * b, b * b, -2.0 * d, 2.0 * b * d, d * d)
  {
    hide Mul;
    var us, vs, es := Deviations(ts, t0), Deviations(ms, m0), Residuals(ts, ms, a, b);
    forall i | 0 <= i < |ts|
      ensures Mul(es[i], es[i])
              == Mul(vs[i], vs[i]) + (Mul(-2.0 * b, Mul(us[i], vs[i])) + (Mul(b * b, Mul(us[i], us[i]))
                 + (Mul(-2.0 * d, vs[i]) + (Mul(2.0 * b * d, us[i]) + d * d))))
    {
      ResidualAt(ts[i], ms[i], t0, m0, a, b, d);
      SquareExpands(us[i], vs[i], b, d, es[i]);
    }
  }

  lemma ResidualAt(t: real, m: real, t0: real, m0: real, a: real, b: real, d: real)
    requires a == m0 - Mul(b, t0) + d
    ensures m - (a + Mul(b, t)) == (m - m0) - Mul(b, t - t0) - d
  {
  }

  function Quadratic(mm: real, tm: real, tt: real, n: real, b: real, d: real): real {
    mm + (Mul(-2.0 * b, tm) + (Mul(b * b, tt) + Mul(d * d, n)))
  }

  /** About the means the squared error is a quadratic in slope and offset. */
  lemma ErrorIsQuadratic(ts: Reals, ms: Reals, a: real, b: real, d: real)
    requires |ts| == |ms| > 0 && a == Mean(ms) - Mul(b, Mean(ts)) + d
    ensures SquaredError(ts, ms, a, b) == Quadratic(Variance(ms), Covariance(ts, ms), Variance(ts), |ts| as real, b, d)
  {
    hide Mul;
    var us, vs := Deviations(ts, Mean(ts)), Deviations(ms, Mean(ms));
    SquaredResidualsCombine(ts, ms, Mean(ts), Mean(ms), a, b, d);
    MeanCentres(ts);
    MeanCentres(ms);
    CentredSum(Products(vs, vs), Products(us, vs), Products(us, us), vs, us, -2.0 * b, b * b, -2.0 * d,
               2.0 * b * d, d * d);
  }

  lemma QuadraticGap(mm: real, tm: real, tt: real, n: real, slope: real, b: real, d: real)
    requires Mul(slope, tt) == tm
    ensures Quadratic(mm, tm, tt, n, b, d)
              == Quadratic(mm, tm, tt, n, slope, 0.0) + Mul(Mul(b - slope, b - slope), tt) + Mul(Mul(d, d), n)
  {
    var x := b - slope;
    assert b * b * tt == slope * slope * tt + 2.0 * x * (slope * tt) + x * x * tt;
    assert 2.0 * b * tm == 2.0 * slope * tm + 2.0 * x * tm;
    assert slope * slope * tt == slope * tm;
  }

  lemma ProductSign(x: real, y: real)
    requires x >= 0.0 && y > 0.0
    ensures Mul(x, y) >= 0.0 && (x > 0.0 ==> Mul(x, y) > 0.0)
  {
  }

  lemma QuadraticMinimum(mm: real, tm: real, tt: real, n: real, slope: real, b: real, d: real)
    requires tt > 0.0 && n > 0.0 && Mul(slope, tt) == tm
    ensures Quadratic(mm, tm, tt, n, slope, 0.0) <= Quadratic(mm, tm, tt, n, b, d)
    ensures b != slope ==> Quadratic(mm, tm, tt, n, slope, 0.0) < Quadratic(mm, tm, tt, n, b, d)
  {
    hide Mul, Quadratic;
    QuadraticGap(mm, tm, tt, n, slope, b, d);
    SquareNonNegative(b - slope);
    SquareNonNegative(d);
    ProductSign(Mul(b - slope, b - slope), tt);
    ProductSign(Mul(d, d), n);
  }

  /** What the line that starts at `a` and grows by `k` a second misses the
      snapshots by. */
  function Misses(snapshots: seq<Snapshot>, a: real, k: real): Reals {
    seq(|snapshots|, i requires 0 <= i < |snapshots| =>
      snapshots[i].totalMemoryMb - (a + k * snapshots[i].elapsedSeconds))
  }

  function Error(snapshots: seq<Snapshot>, a: real, k: real): real {
    Sum(Products(Misses(snapshots, a, k), Misses(snapshots, a, k)))
  }

  lemma ErrorPerHour(snapshots: seq<Snapshot>, a: real, k: real)
    ensures Error(snapshots, a, k) == SquaredError(Times(snapshots), Memory(snapshots), a, 3600.0 * k)
  {
    hide Mul;
    var b := 3600.0 * k;
    var misses, residuals := Misses(snapshots, a, k), Residuals(Times(snapshots), Memory(snapshots), a, b);
    forall i | 0 <= i < |snapshots| ensures misses[i] == residuals[i] {
      PerHour(k, snapshots[i].elapsedSeconds);
    }
    assert misses == residuals;
  }

  /** The rate, in MB per hour, is that of the least-squares line through the
      snapshots: from a suitable start it has the smallest sum of squared
      misses of all lines, and no line of another rate has an equal one. */
  lemma SlopeMinimises(snapshots: seq<Snapshot>, threshold: real, i: nat, j: nat) returns (start: real)
    requires i < |snapshots| && j < |snapshots| && snapshots[i].elapsedSeconds != snapshots[j].elapsedSeconds
    ensures var (leak, rate) := DetectMemoryLeak(snapshots, threshold);
            && (leak <==> rate > threshold)
            && forall a, k :: Error(snapshots, start, rate / 3600.0) <= Error(snapshots, a, k)
                              && (3600.0 * k != rate ==>
                                    Error(snapshots, start, rate / 3600.0) < Error(snapshots, a, k))
  {
    hide Mul, SquaredError, Slope, Error;
    var ts, ms := Times(snapshots), Memory(snapshots);
    assert ts[i] != ts[j];
    DistinctTimesVary(ts, i, j);
    var rate := Slope(ts, ms);
    start := Mean(ms) - Mul(rate, Mean(ts));
    assert 3600.0 * (rate / 3600.0) == rate;
    ErrorPerHour(snapshots, start, rate / 3600.0);
    forall a, k
      ensures Error(snapshots, start, rate / 3600.0) <= Error(snapshots, a, k)
      ensures 3600.0 * k != rate ==> Error(snapshots, start, rate / 3600.0) < Error(snapshots, a, k)
    {
      ErrorPerHour(snapshots, a, k);
      BestLine(ts, ms, a, 3600.0 * k);
    }
  }

  lemma BestLine(ts: Reals, ms: Reals, a: real, b: real)
    requires |ts| == |ms| > 0 && Variance(ts) > 0.0
    ensures var slope := Slope(ts, ms);
            var best := SquaredError(ts, ms, Mean(ms) - Mul(slope, Mean(ts)), slope);
            best <= SquaredError(ts, ms, a, b) && (b != slope ==> best < SquaredError(ts, ms, a, b))
  {
    SlopeTimesVariance(ts, ms);
    hide Mul, SquaredError, Quadratic, Slope;
    var slope := Slope(ts, ms);
    var d := a - Mean(ms) + Mul(b, Mean(ts));
    ErrorIsQuadratic(ts, ms, a, b, d);
    ErrorIsQuadratic(ts, ms, Mean(ms) - Mul(slope, Mean(ts)), slope, 0.0);
    QuadraticMinimum(Variance(ms), Covariance(ts, ms), Variance(ts), |ts| as real, slope, b, d);
  }

  lemma SlopeTimesVariance(ts: Reals, ms: Reals)
    requires |ts| == |ms| > 0 && Variance(ts) != 0.0
    ensures Mul(Slope(ts, ms), Variance(ts)) == Covariance(ts, ms)
  {
    hide Sum;
  }

  // -------------------------------------------------------------- consequences

  function Shifted(snapshots: seq<Snapshot>, k: real): (r: seq<Snapshot>)
    ensures |r| == |snapshots|
  {
    seq(|snapshots|, i requires 0 <= i < |snapshots| => snapshots[i].(totalMemoryMb := snapshots[i].totalMemoryMb + k))
  }

  /** A constant added to every memory value changes neither flag nor rate. */
  lemma ShiftInvariant(snapshots: seq<Snapshot>, threshold: real, k: real)
    ensures DetectMemoryLeak(Shifted(snapshots, k), threshold) == DetectMemoryLeak(snapshots, threshold)
  {
    if |snapshots| >= 2 {
      hide Mul;
      var ms, ms' := Memory(snapshots), Memory(Shifted(snapshots, k));
      assert Times(Shifted(snapshots, k)) == Times(snapshots);
      assert ms' == Plus(ms, Constant(k, |ms|));
      SumPlus(ms, Constant(k, |ms|));
      SumConstant(k, |ms|);
      ShiftedMean(Sum(ms), |ms| as real, k);
      assert Deviations(ms', Mean(ms')) == Deviations(ms, Mean(ms));
    }
  }

  lemma ShiftedMean(sum: real, n: real, k: real)
    requires n > 0.0
    ensures (sum + Mul(k, n)) / n == sum / n + k
  {
  }

  predicate OnLine(ts: Reals, ms: Reals, a: real, b: real)
    requires |ts| == |ms|
  {
    forall i :: 0 <= i < |ts| ==> ms[i] == a + Mul(b, ts[i])
  }

  /** Memory that grows by `k` MB a second, from `a`, seen at two different
      times at least, grows by 3600 times as much an hour: that is the rate,
      and the flag is its comparison with the threshold. */
  lemma ExactLine(snapshots: seq<Snapshot>, threshold: real, a: real, k: real, i: nat, j: nat)
    requires i < |snapshots| && j < |snapshots| && snapshots[i].elapsedSeconds != snapshots[j].elapsedSeconds
    requires forall n :: 0 <= n < |snapshots| ==>
               snapshots[n].totalMemoryMb == a + k * snapshots[n].elapsedSeconds
    ensures DetectMemoryLeak(snapshots, threshold) == (3600.0 * k > threshold, 3600.0 * k)
  {
    var ts, ms, b := Times(snapshots), Memory(snapshots), 3600.0 * k;
    assert ts[i] != ts[j];
    DistinctTimesVary(ts, i, j);
    forall n | 0 <= n < |ts| ensures ms[n] == a + Mul(b, ts[n]) {
      PerHour(k, snapshots[n].elapsedSeconds);
    }
    LineCovariance(ts, ms, a, b);
    SlopeTimesVariance(ts, ms);
    Cancel(Slope(ts, ms), b, Variance(ts));
  }

  lemma PerHour(k: real, seconds: real)
    ensures Mul(3600.0 * k, seconds / 3600.0) == k * seconds
  {
  }

  lemma Cancel(x: real, y: real, v: real)
    requires v > 0.0 && Mul(x, v) == Mul(y, v)
    ensures x == y
  {
  }

  /** Two different times give a positive variance. */
  lemma DistinctTimesVary(ts: Reals, i: nat, j: nat)
    requires i < |ts| && j < |ts| && ts[i] != ts[j]
    ensures Variance(ts) > 0.0
  {
    hide Mul;
    var k := if ts[i] != Mean(ts) then i else j;
    var us := Deviations(ts, Mean(ts));
    SquaresSum(us);
    assert us[k] != 0.0;
  }

  lemma LineCovariance(ts: Reals, ms: Reals, a: real, b: real)
    requires |ts| == |ms| > 0 && OnLine(ts, ms, a, b)
    ensures Covariance(ts, ms) == Mul(b, Variance(ts))
  {
    hide Mul;
    var us := Deviations(ts, Mean(ts));
    LineDeviations(ts, ms, a, b);
    assert Products(us, Scaled(b, us)) == Scaled(b, Products(us, us)) by {
      forall k | 0 <= k < |us| ensures Mul(us[k], Mul(b, us[k])) == Mul(b, Mul(us[k], us[k])) {
        Reassociate(us[k], b, us[k]);
      }
    }
    SumScaled(b, Products(us, us));
  }

  lemma Reassociate(x: real, y: real, z: real)
    ensures Mul(x, Mul(y, z)) == Mul(y, Mul(x, z))
  {
  }

  lemma LineDeviations(ts: Reals, ms: Reals, a: real, b: real)
    requires |ts| == |ms| > 0 && OnLine(ts, ms, a, b)
    ensures Deviations(ms, Mean(ms)) == Scaled(b, Deviations(ts, Mean(ts)))
  {
    hide Mul, Sum;
    LineSum(ts, ms, a, b);
    LineMean(Sum(ts), Sum(ms), |ts| as real, a, b);
    forall i | 0 <= i < |ts| ensures ms[i] - Mean(ms) == Mul(b, ts[i] - Mean(ts)) {
      ResidualAt(ts[i], ms[i], Mean(ts), Mean(ms), a, b, 0.0);
    }
  }

  lemma LineSum(ts: Reals, ms: Reals, a: real, b: real)
    requires |ts| == |ms| && OnLine(ts, ms, a, b)
    ensures Sum(ms) == Mul(a, |ts| as real) + Mul(b, Sum(ts))
  {
    hide Mul, Sum;
    assert ms == Plus(Constant(a, |ts|), Scaled(b, ts));
    SumPlus(Constant(a, |ts|), Scaled(b, ts));
    SumConstant(a, |ts|);
    SumScaled(b, ts);
  }

  lemma LineMean(st: real, sm: real, n: real, a: real, b: real)
    requires n > 0.0 && sm == Mul(a, n) + Mul(b, st)
    ensures sm / n == a + Mul(b, st / n)
  {
    assert st == (st / n) * n;
    assert sm == (a + b * (st / n)) * n;
  }

  /** Without two distinct times there is no rate, and never a leak. */
  lemma NoSpreadNoLeak(snapshots: seq<Snapshot>, threshold: real)
    requires forall i, j :: 0 <= i < |snapshots| && 0 <= j < |snapshots| ==>
              snapshots[i].elapsedSeconds == snapshots[j].elapsedSeconds
    ensures DetectMemoryLeak(snapshots, threshold) == (false, 0.0)
  {
    if |snapshots| >= 2 {
      hide Mul;
      var ts := Times(snapshots);
      var n := |ts|;
      assert ts == Constant(ts[0], n);
      SumConstant(ts[0], n);
      MeanTimesCount(ts);
      Cancel(Mean(ts), ts[0], n as real);
      var us := Deviations(ts, Mean(ts));
      MulUnits(0.0);
      assert Products(us, us) == Constant(0.0, n);
      SumConstant(0.0, n);
      MulUnits(n as real);
    }
  }
}
