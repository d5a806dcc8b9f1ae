/** Cooling-off detection: a one-sided lower CUSUM over a wallet's standardized returns. */
module Freshness {
  import opened Seqs

  const MIN_SAMPLES: nat := 20
  const K := 0.5
  const H := 5.0
  const CLAMP := 4.0
  const TINY := 0.000000001

  function Id(x: real): real { x }

  function Mean(xs: seq<real>): real
    requires xs != []
  {
    RealSum(Id, xs) / |xs| as real
  }

  function SquaredFrom(mean: real): real -> real { x => (x - mean) * (x - mean) }

  function Variance(xs: seq<real>): real
    requires xs != []
  {
    RealSum(SquaredFrom(Mean(xs)), xs) / |xs| as real
  }

  function Clamped(z: real): real
  {
    if z > CLAMP then CLAMP else if z < -CLAMP then -CLAMP else z
  }

  function ScoreOf(mean: real, sd: real): real -> real
    requires sd > 0.0
  {
    x => Clamped((x - mean) / sd)
  }

  /** The running low-side sum, never below zero. */
  function Cusum(zs: seq<real>): real
  {
    if zs == [] then 0.0
    else
      var s := Cusum(zs[..|zs| - 1]) - zs[|zs| - 1] - K;
      if s < 0.0 then 0.0 else s
  }

  /** sqrt(v) is the square root of v. */
  predicate Root(sqrt: real -> real, v: real)
  {
    sqrt(v) >= 0.0 && sqrt(v) * sqrt(v) == v
  }

  predicate IsFresh(series: seq<real>, sqrt: real -> real)
  {
    || |series| < MIN_SAMPLES
    || sqrt(Variance(series)) < TINY
    || Cusum(Map(ScoreOf(Mean(series), sqrt(Variance(series))), series)) <= H
  }

  method MeanVariance(xs: seq<real>) returns (mean: real, variance: real)
    requires xs != []
    ensures mean == Mean(xs) && variance == Variance(xs)
  {
    var n := |xs| as real;
    var sum := 0.0;
    for i := 0 to |xs|
      invariant sum == RealSum(Id, xs[..i])
    {
      assert xs[..i + 1] == xs[..i] + [xs[i]];
      RealSumSnoc(Id, xs[..i], xs[i]);
      sum := sum + xs[i];
    }
    assert xs[..|xs|] == xs;
    mean := sum / n;
    var ss := 0.0;
    for i := 0 to |xs|
      invariant ss == RealSum(SquaredFrom(mean), xs[..i])
    {
      assert xs[..i + 1] == xs[..i] + [xs[i]];
      RealSumSnoc(SquaredFrom(mean), xs[..i], xs[i]);
      var d := xs[i] - mean;
      ss := ss + d * d;
    }
    variance := ss / n;
  }

  method Fresh(series: seq<real>, sqrt: real -> real) returns (ok: bool)
    ensures ok == IsFresh(series, sqrt)
  {
    if |series| < MIN_SAMPLES {
      return true;
    }
    var mean, variance := MeanVariance(series);
    var sd := sqrt(variance);
    if sd < TINY {
      return true;
    }
    var sLo := 0.0;
    ghost var zs := Map(ScoreOf(mean, sd), series);
    for i := 0 to |series|
      invariant sLo == Cusum(zs[..i])
    {
      var z := (series[i] - mean) / sd;
      if z > CLAMP {
        z := CLAMP;
      } else if z < -CLAMP {
        z := -CLAMP;
      }
      sLo := sLo - z - K;
      if sLo < 0.0 {
        sLo := 0.0;
      }
      assert zs[..i + 1][..i] == zs[..i];
    }
    assert zs[..|series|] == zs;
    ok := sLo <= H;
  }

  // ---- What the sum means ----

  /** How far an observation is below the slack. */
  function Drop(z: real): real { -z - K }

  function Drops(zs: seq<real>): real { RealSum(Drop, zs) }

  /** The running sum is the largest drop over a suffix; the empty suffix drops nothing. */
  lemma {:induction false} CusumIsLargestSuffix(zs: seq<real>) returns (k: nat)
    ensures forall j :: 0 <= j <= |zs| ==> Drops(zs[j..]) <= Cusum(zs)
    ensures k <= |zs| && Cusum(zs) == Drops(zs[k..])
  {
    if zs == [] {
      k := 0;
    } else {
      var rest, z := zs[..|zs| - 1], zs[|zs| - 1];
      k := CusumIsLargestSuffix(rest);
      forall j | 0 <= j <= |zs|
        ensures Drops(zs[j..]) == if j == |zs| then 0.0 else Drops(rest[j..]) + Drop(z)
      {
        if j < |zs| {
          assert zs[j..] == rest[j..] + [z];
          RealSumSnoc(Drop, rest[j..], z);
        }
      }
      if Cusum(rest) - z - K < 0.0 {
        k := |zs|;
      }
    }
  }

  predicate Low(z: real) { z < -K }

  /** Clamping caps what one observation can add. */
  lemma {:induction false} DropsAtMost(zs: seq<real>)
    requires forall i :: 0 <= i < |zs| ==> zs[i] >= -CLAMP
    ensures Drops(zs) <= (CLAMP - K) * |Filter(Low, zs)| as real
  {
    if zs != [] {
      var rest, z := zs[..|zs| - 1], zs[|zs| - 1];
      DropsAtMost(rest);
      assert zs == rest + [z];
      RealSumSnoc(Drop, rest, z);
    }
  }

  predicate Below(mean: real, sd: real, x: real) { x < mean - K * sd }

  lemma ScaledLess(a: real, b: real, c: real)
    requires c > 0.0
    ensures a < b <==> a * c < b * c
  {
    var d := b - a;
    assert d * c == b * c - a * c;
    assert d > 0.0 ==> d * c > 0.0;
    assert d <= 0.0 ==> d * c <= 0.0;
  }

  lemma LowScore(mean: real, sd: real, x: real)
    requires sd > 0.0
    ensures Low(ScoreOf(mean, sd)(x)) <==> Below(mean, sd, x)
  {
    var q := (x - mean) / sd;
    assert q * sd == x - mean;
    ScaledLess(q, -K, sd);
  }

  lemma {:induction false} LowScores(mean: real, sd: real, xs: seq<real>)
    requires sd > 0.0
    ensures |Filter(Low, Map(ScoreOf(mean, sd), xs))| == |Filter((x: real) => Below(mean, sd, x), xs)|
  {
    if xs != [] {
      var rest, x := xs[..|xs| - 1], xs[|xs| - 1];
      LowScores(mean, sd, rest);
      LowScore(mean, sd, x);
      assert Map(ScoreOf(mean, sd), xs)[..|xs| - 1] == Map(ScoreOf(mean, sd), rest);
    }
  }

  /** One bad result never marks a wallet as cooling off: a recent stretch has at least two returns half a deviation below the mean. */
  lemma NotFreshMeans(series: seq<real>, sqrt: real -> real) returns (k: nat)
    requires !IsFresh(series, sqrt)
    ensures |series| >= MIN_SAMPLES && k <= |series|
    ensures var mean, sd := Mean(series), sqrt(Variance(series));
            |Filter((x: real) => Below(mean, sd, x), series[k..])| >= 2
  {
    hide Mean, Variance, Cusum, Drops, Filter, Low;
    var mean, sd := Mean(series), sqrt(Variance(series));
    var zs := Map(ScoreOf(mean, sd), series);
    k := CusumIsLargestSuffix(zs);
    assert zs[k..] == Map(ScoreOf(mean, sd), series[k..]);
    var tail := series[k..];
    forall i | 0 <= i < |tail| ensures Map(ScoreOf(mean, sd), tail)[i] >= -CLAMP {
      assert Map(ScoreOf(mean, sd), tail)[i] == Clamped((tail[i] - mean) / sd);
    }
    TwoLow(zs[k..]);
    LowScores(mean, sd, series[k..]);
  }

  lemma TwoLow(zs: seq<real>)
    requires Drops(zs) > H && forall i :: 0 <= i < |zs| ==> zs[i] >= -CLAMP
    ensures |Filter(Low, zs)| >= 2
  {
    hide Drops, Filter;
    DropsAtMost(zs);
  }

  // ---- The verdict ----

  /** How far the returns fall short of half a deviation below the mean, each by at most three and a half. */
  function Shortfall(xs: seq<real>, mean: real, sd: real): real
    requires sd > 0.0
  {
    if xs == [] then 0.0
    else
      var z := (xs[|xs| - 1] - mean) / sd;
      var bounded := if z < -4.0 then -4.0 else if z > 4.0 then 4.0 else z;
      Shortfall(xs[..|xs| - 1], mean, sd) - bounded - 0.5
  }

  lemma DropOfScore(x: real, mean: real, sd: real)
    requires sd > 0.0
    ensures var z := (x - mean) / sd;
            Drop(ScoreOf(mean, sd)(x)) == -(if z < -4.0 then -4.0 else if z > 4.0 then 4.0 else z) - 0.5
  {
    assert ScoreOf(mean, sd)(x) == Clamped((x - mean) / sd);
    DropOfClamped((x - mean) / sd);
  }

  lemma DropOfClamped(z: real)
    ensures Drop(Clamped(z)) == -(if z < -4.0 then -4.0 else if z > 4.0 then 4.0 else z) - 0.5
  {}

  lemma {:induction false} ShortfallIsDrops(xs: seq<real>, mean: real, sd: real)
    requires sd > 0.0
    ensures Shortfall(xs, mean, sd) == Drops(Map(ScoreOf(mean, sd), xs))
  {
    hide ScoreOf, Drop, RealSum;
    if xs == [] {
      NoDrops();
    } else {
      var rest, x := xs[..|xs| - 1], xs[|xs| - 1];
      ShortfallIsDrops(rest, mean, sd);
      assert Map(ScoreOf(mean, sd), xs) == Map(ScoreOf(mean, sd), rest) + [ScoreOf(mean, sd)(x)];
      RealSumSnoc(Drop, Map(ScoreOf(mean, sd), rest), ScoreOf(mean, sd)(x));
      DropOfScore(x, mean, sd);
    }
  }

  lemma NoDrops()
    ensures Drops([]) == 0.0
  {}

  /** The returns from some point on fall short by more than five. */
  ghost predicate CoolsOff(xs: seq<real>, mean: real, sd: real)
    requires sd > 0.0
  {
    exists k :: 0 <= k <= |xs| && Shortfall(xs[k..], mean, sd) > 5.0
  }

  /** Not fresh exactly when there are twenty returns, they vary, and from some point on they fall short by more than five. */
  lemma FreshExactly(series: seq<real>, sqrt: real -> real)
    ensures !IsFresh(series, sqrt) <==>
            && |series| >= 20 && sqrt(Variance(series)) >= 0.000000001
            && CoolsOff(series, Mean(series), sqrt(Variance(series)))
  {
    hide Mean, Variance, Cusum, Drops, Shortfall;
    if |series| >= 20 && sqrt(Variance(series)) >= 0.000000001 {
      var mean, sd := Mean(series), sqrt(Variance(series));
      var zs := Map(ScoreOf(mean, sd), series);
      var k := CusumIsLargestSuffix(zs);
      forall j | 0 <= j <= |series| ensures Shortfall(series[j..], mean, sd) == Drops(zs[j..]) {
        ShortfallIsDrops(series[j..], mean, sd);
        assert zs[j..] == Map(ScoreOf(mean, sd), series[j..]);
      }
      assert Shortfall(series[k..], mean, sd) == Cusum(zs);
    }
  }

  function Square(x: real): real { x * x }

  /** The squared distances from `mean` of n numbers with that sum and those squares. */
  function Spread(mean: real, sum: real, squares: real, n: real): real
  {
    squares - 2.0 * mean * sum + n * mean * mean
  }

  lemma {:induction false} SquaresFrom(mean: real, xs: seq<real>)
    ensures RealSum(SquaredFrom(mean), xs) == Spread(mean, RealSum(Id, xs), RealSum(Square, xs), |xs| as real)
  {
    hide Spread, RealSum, SquaredFrom, Square;
    if xs == [] {
      NoSquares(mean);
    } else {
      var rest, x := xs[..|xs| - 1], xs[|xs| - 1];
      assert xs == rest + [x];
      SquaresFrom(mean, rest);
      RealSumSnoc(SquaredFrom(mean), rest, x);
      RealSumSnoc(Square, rest, x);
      RealSumSnoc(Id, rest, x);
      OneMoreSquare(mean, x, RealSum(Id, rest), RealSum(Square, rest), |rest| as real);
      assert |xs| as real == |rest| as real + 1.0;
    }
  }

  lemma NoSquares(mean: real)
    ensures RealSum(SquaredFrom(mean), []) == Spread(mean, RealSum(Id, []), RealSum(Square, []), 0.0)
  {}

  lemma OneMoreSquare(mean: real, x: real, sum: real, squares: real, n: real)
    ensures Spread(mean, sum, squares, n) + SquaredFrom(mean)(x) == Spread(mean, sum + Id(x), squares + Square(x), n + 1.0)
  {}

  /** Mean and variance from the sums of the returns and of their squares. */
  lemma Moments(xs: seq<real>)
    requires xs != []
    ensures var n, sum := |xs| as real, RealSum(Id, xs);
            && n * Mean(xs) == sum
            && n * n * Variance(xs) == n * RealSum(Square, xs) - sum * sum
  {
    hide RealSum;
    SquaresFrom(Mean(xs), xs);
    MomentsOf(|xs| as real, RealSum(Id, xs), RealSum(Square, xs), Mean(xs), Variance(xs));
  }

  lemma MomentsOf(n: real, sum: real, squares: real, mean: real, variance: real)
    requires n > 0.0 && mean == sum / n
    requires variance == (squares - 2.0 * mean * sum + n * mean * mean) / n
    ensures n * mean == sum && n * n * variance == n * squares - sum * sum
  {
    assert n * mean == sum;
    var t := squares - 2.0 * mean * sum + n * mean * mean;
    assert n * variance == t;
    assert n * mean * mean == sum * mean;
    assert t == squares - mean * sum;
    assert n * n * variance == n * t;
    assert n * t == n * squares - (n * mean) * sum;
  }

  /** A constant series is fresh, whatever its length. */
  lemma ConstantIsFresh(series: seq<real>, sqrt: real -> real, x: real)
    requires forall r :: r in series ==> r == x
    requires series != [] ==> Root(sqrt, Variance(series))
    ensures IsFresh(series, sqrt)
  {
    hide Mean, Variance, Cusum;
    if series != [] {
      ConstantMoments(series, x);
      var sd := sqrt(0.0);
      assert sd > 0.0 ==> sd * sd > 0.0;
    }
  }

  lemma ConstantMoments(series: seq<real>, x: real)
    requires series != [] && forall r :: r in series ==> r == x
    ensures Mean(series) == x && Variance(series) == 0.0
  {
    hide RealSum;
    ConstantSum(Id, series, x);
    Quotient(|series| as real, x);
    ConstantSum(SquaredFrom(x), series, x);
    Quotient(|series| as real, 0.0);
  }

  lemma Quotient(n: real, x: real)
    requires n > 0.0
    ensures n * x / n == x
  {}

  lemma {:induction false} ConstantSum(f: real -> real, xs: seq<real>, x: real)
    requires forall y :: y in xs ==> y == x
    ensures RealSum(f, xs) == |xs| as real * f(x)
  {
    if xs != [] {
      var rest := xs[..|xs| - 1];
      assert forall y :: y in rest ==> y in xs;
      assert xs[|xs| - 1] in xs;
      ConstantSum(f, rest, x);
      var n := |rest| as real;
      assert |xs| as real == n + 1.0;
      assert (n + 1.0) * f(x) == n * f(x) + f(x);
      assert xs[|xs| - 1] == x;
    }
  }
}
