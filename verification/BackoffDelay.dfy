/** The delay of a retry, over the reals: the random draw is a parameter in [0, 1). */
module BackoffDelay {

  datatype DelayType = Linear | Exponential

  /** The distort factor is a percentage, as the documentation gives it. */
  datatype Config = Config(delay: real, factor: real, distortFactor: nat, retryCount: int, delayType: DelayType)

  predicate Draw(r: real) { 0.0 <= r < 1.0 }

  /** How many percentages the draw is spread over. */
  function Width(d: nat): real { (2 * d + 1) as real }

  /** A whole number of percent around 100. */
  function Percent(d: nat, r: real): int { Rounded(d, Spread(r, Width(d))) }

  function Spread(r: real, width: real): real { r * width }

  function Rounded(d: nat, v: real): int { (v + (100 - d) as real).Floor }

  function Pow(base: real, n: nat): real { if n == 0 then 1.0 else base * Pow(base, n - 1) }

  function Factor(c: Config): (f: real)
    ensures f >= 2.0
  {
    if c.factor < 2.0 then 2.0 else c.factor
  }

  function HalfOf(x: real, delay: real): real { x * delay / 2.0 }

  /** The delay before it is distorted. */
  function Middle(c: Config, iteration: nat): real {
    if c.delayType == Exponential then HalfOf(Pow(Factor(c), iteration + 1) - 1.0, c.delay)
    else c.delay * c.factor * (iteration + 1) as real
  }

  function Distorted(delay: real, percent: int): real { delay * (percent as real / 100.0) }

  function BackOffTime(c: Config, iteration: nat, r: real): real {
    if iteration == c.retryCount then 0.0 else Distorted(Middle(c, iteration), Percent(c.distortFactor, r))
  }

  // ---------- multiplication ----------

  lemma Scale(a: real, b: real, n: real)
    requires a <= b && n >= 0.0
    ensures a * n <= b * n
  {
  }

  lemma StrictScale(a: real, n: real)
    requires a > 0.0 && n > 0.0
    ensures a * n > 0.0
  {
  }

  lemma Divide(a: real, n: real) returns (r: real)
    requires 0.0 <= a < n
    ensures r * n == a && 0.0 <= r < 1.0
  {
    r := a / n;
    if r < 0.0 { StrictScale(-r, n); }
    if r >= 1.0 { Scale(1.0, r, n); }
  }

  /** Bernoulli's inequality. */
  lemma {:induction false} PowGrows(base: real, n: nat)
    requires base >= 2.0
    ensures Pow(base, n) >= 1.0 + n as real
  {
    if n == 0 {
    } else {
      PowGrows(base, n - 1);
      Scale(2.0, base, Pow(base, n - 1));
    }
  }

  /** Powers outgrow every bound. */
  lemma PowOvertakes(f: real, bound: real, step: real) returns (i: nat)
    requires f >= 2.0 && step > 0.0
    ensures (Pow(f, i + 1) - 1.0) * step >= bound
  {
    var q := bound / step;
    assert q * step == bound;
    i := if q < 0.0 then 0 else q.Floor + 1;
    PowGrows(f, i + 1);
    Scale(q, Pow(f, i + 1) - 1.0, step);
  }

  // ---------- the jitter ----------

  lemma PercentRange(d: nat, r: real)
    requires Draw(r)
    ensures 100 - d <= Percent(d, r) <= 100 + d
  {
    hide Rounded, Width, Percent, Spread;
    PercentUnfolds(d, r);
    WidthPositive(d);
    SpreadRange(r, Width(d));
    hide *;
    RoundedRange(d, Spread(r, Width(d)));
  }

  lemma PercentUnfolds(d: nat, r: real)
    ensures Percent(d, r) == Rounded(d, Spread(r, Width(d)))
  {
  }

  lemma SpreadRange(r: real, width: real)
    requires Draw(r) && width > 0.0
    ensures 0.0 <= Spread(r, width) < width
  {
  }

  lemma WidthPositive(d: nat)
    ensures Width(d) > 0.0
  {
  }

  lemma RoundedRange(d: nat, v: real)
    requires 0.0 <= v < Width(d)
    ensures 100 - d <= Rounded(d, v) <= 100 + d
  {
  }

  /** The jitter draws every whole percentage within the distort factor, and no other. */
  lemma PercentExactly(d: nat, k: int)
    ensures (exists r :: Draw(r) && Percent(d, r) == k) <==> 100 - d <= k <= 100 + d
  {
    if 100 - d <= k <= 100 + d {
      var r := Divide((k - (100 - d)) as real, Width(d));
      assert Draw(r) && Percent(d, r) == k;
    }
    if r :| Draw(r) && Percent(d, r) == k { PercentRange(d, r); }
  }

  /** The value lies within d percent of the middle. */
  predicate Within(value: real, middle: real, d: nat) {
    middle * (1.0 - d as real / 100.0) <= value <= middle * (1.0 + d as real / 100.0)
  }

  lemma DistortedWithin(m: real, d: nat, p: int)
    requires m >= 0.0 && 100 - d <= p <= 100 + d
    ensures Within(Distorted(m, p), m, d)
  {
    Scale(1.0 - d as real / 100.0, p as real / 100.0, m);
    Scale(p as real / 100.0, 1.0 + d as real / 100.0, m);
  }

  lemma WithinAdds(x: real, a: real, y: real, b: real, d: nat)
    requires Within(x, a, d) && Within(y, b, d)
    ensures Within(x + y, a + b, d)
  {
  }

  /** Below the last iteration every delay lies within the distort percentage of the undistorted one. */
  lemma WithinDistortion(c: Config, iteration: nat, r: real)
    requires Draw(r) && iteration != c.retryCount && Middle(c, iteration) >= 0.0
    ensures Within(BackOffTime(c, iteration, r), Middle(c, iteration), c.distortFactor)
  {
    hide Percent, Distorted, Within, Middle;
    PercentRange(c.distortFactor, r);
    DistortedWithin(Middle(c, iteration), c.distortFactor, Percent(c.distortFactor, r));
  }

  // ---------- without jitter ----------

  lemma NoJitter(m: real, r: real)
    requires Draw(r)
    ensures Distorted(m, Percent(0, r)) == m
  {
    PercentRange(0, r);
    hide Percent;
  }

  lemma HalfOfPower(x: real, delay: real, f: real)
    ensures 2.0 * HalfOf(x, delay) == x * delay
    ensures 2.0 * HalfOf(f * (x + 1.0) - 1.0, delay) == 2.0 * f * HalfOf(x, delay) + (f - 1.0) * delay
  {
  }

  /** The first exponential delay without jitter: half of factor minus one, in delays; the factor is at least 2. */
  lemma FirstDelay(c: Config, r: real)
    requires c.delayType == Exponential && c.distortFactor == 0 && c.retryCount != 0 && Draw(r)
    ensures 2.0 * BackOffTime(c, 0, r) == ((if c.factor < 2.0 then 2.0 else c.factor) - 1.0) * c.delay
  {
    var f := Factor(c);
    assert f == if c.factor < 2.0 then 2.0 else c.factor;
    PowNext(f, 0);
    assert Pow(f, 1) - 1.0 == f - 1.0;
    BackOffUnfolds(c, 0, r);
    hide *;
    HalfOfPower(f - 1.0, c.delay, f);
  }

  /** Each one is factor times the one before, and as much again as the first. */
  lemma NextDelay(c: Config, i: nat, r: real, r': real)
    requires c.delayType == Exponential && c.distortFactor == 0 && Draw(r) && Draw(r')
    requires i != c.retryCount && i + 1 != c.retryCount
    ensures var f := if c.factor < 2.0 then 2.0 else c.factor;
      2.0 * BackOffTime(c, i + 1, r') == 2.0 * f * BackOffTime(c, i, r) + (f - 1.0) * c.delay
  {
    var f := Factor(c);
    assert f == if c.factor < 2.0 then 2.0 else c.factor;
    hide *;
    var x := Pow(f, i + 1) - 1.0;
    PowNext(f, i + 1);
    assert Pow(f, i + 2) - 1.0 == f * (x + 1.0) - 1.0;
    BackOffUnfolds(c, i, r);
    BackOffUnfolds(c, i + 1, r');
    HalfOfPower(x, c.delay, f);
  }

  lemma BackOffUnfolds(c: Config, i: nat, r: real)
    requires c.distortFactor == 0 && Draw(r) && i != c.retryCount
    ensures BackOffTime(c, i, r) == Middle(c, i)
    ensures c.delayType == Exponential ==> BackOffTime(c, i, r) == HalfOf(Pow(Factor(c), i + 1) - 1.0, c.delay)
  {
    NoJitter(Middle(c, i), r);
    hide Percent, Pow, HalfOf, Factor, Distorted;
  }

  /** The linear delays without jitter are the multiples of delay times factor. */
  lemma LinearDelays(c: Config, i: nat, r: real)
    requires c.delayType == Linear && c.distortFactor == 0 && i != c.retryCount && Draw(r)
    ensures BackOffTime(c, i, r) == c.delay * c.factor * (i + 1) as real
  {
    BackOffUnfolds(c, i, r);
    hide BackOffTime;
  }

  /** With jitter, every delay lies within the distort percentage of the one without. */
  lemma WithinOfUndistorted(c: Config, i: nat, r: real)
    requires Draw(r) && i != c.retryCount && Middle(c, i) >= 0.0
    ensures Within(BackOffTime(c, i, r), BackOffTime(c.(distortFactor := 0), i, 0.0), c.distortFactor)
  {
    var plain := c.(distortFactor := 0);
    BackOffUnfolds(plain, i, 0.0);
    assert Middle(plain, i) == Middle(c, i);
    WithinDistortion(c, i, r);
    hide *;
  }

  // ---------- growth ----------

  /** The longest delay of an iteration is shorter than the shortest of the next. */
  ghost predicate GrowsAt(c: Config, i: nat) {
    forall r, r' :: Draw(r) && Draw(r') ==>
      Distorted(Middle(c, i), Percent(c.distortFactor, r)) < Distorted(Middle(c, i + 1), Percent(c.distortFactor, r'))
  }

  lemma DistortedGrows(a: real, p: int, p': int)
    requires a >= 0.0 && p <= p'
    ensures Distorted(a, p) <= Distorted(a, p')
  {
  }

  /** The draws that decide are the extreme ones. */
  lemma ExtremesDecide(c: Config, i: nat)
    requires Middle(c, i) >= 0.0 && Middle(c, i + 1) >= 0.0
    ensures GrowsAt(c, i) <==>
      Distorted(Middle(c, i), 100 + c.distortFactor) < Distorted(Middle(c, i + 1), 100 - c.distortFactor)
  {
    var a, b := Middle(c, i), Middle(c, i + 1);
    var d, low: int, high := c.distortFactor, 100 - c.distortFactor, 100 + c.distortFactor;
    PercentExactly(d, high);
    PercentExactly(d, low);
    hide Percent, Distorted, Middle, Draw;
    if Distorted(a, high) < Distorted(b, low) {
      forall r, r' | Draw(r) && Draw(r') ensures Distorted(a, Percent(d, r)) < Distorted(b, Percent(d, r')) {
        PercentRange(d, r);
        PercentRange(d, r');
        DistortedGrows(a, Percent(d, r), high);
        DistortedGrows(b, low, Percent(d, r'));
      }
    } else {
      var most :| Draw(most) && Percent(d, most) == high;
      var least :| Draw(least) && Percent(d, least) == low;
      assert !(Distorted(a, Percent(d, most)) < Distorted(b, Percent(d, least)));
    }
  }

  /** How far the growth by f outweighs a jitter of d percent, x being the growth so far. */
  function Margin(f: real, x: real, d: real): real { x * (f * (100.0 - d) - (100.0 + d)) + (f - 1.0) * (100.0 - d) }

  /** One step of growth, from x to f (x + 1) - 1, as numbers. */
  lemma GrowsByMargin(f: real, x: real, y: real, delay: real, d: nat)
    requires delay > 0.0 && y == f * (x + 1.0) - 1.0
    ensures Distorted(HalfOf(x, delay), 100 + d) < Distorted(HalfOf(y, delay), 100 - d) <==>
      Margin(f, x, d as real) > 0.0
  {
  }

  lemma ExponentialMiddle(c: Config, i: nat)
    requires c.delayType == Exponential && c.delay >= 0.0
    ensures var x := Pow(Factor(c), i + 1) - 1.0;
      x >= 1.0 && Middle(c, i) == HalfOf(x, c.delay) >= 0.0 && (c.delay > 0.0 ==> Middle(c, i) > 0.0)
  {
    PowGrows(Factor(c), i + 1);
    var x := Pow(Factor(c), i + 1) - 1.0;
    hide Pow;
    hide HalfOf;
    HalfSign(x, c.delay);
  }

  lemma HalfSign(x: real, delay: real)
    requires x > 0.0 && delay >= 0.0
    ensures HalfOf(x, delay) >= 0.0 && (delay > 0.0 ==> HalfOf(x, delay) > 0.0)
  {
  }

  lemma PowNext(f: real, n: nat)
    ensures Pow(f, n + 1) == f * Pow(f, n)
  {
  }

  lemma GrowsAtExactly(c: Config, i: nat)
    requires c.delayType == Exponential && c.delay > 0.0
    ensures GrowsAt(c, i) <==> Margin(Factor(c), Pow(Factor(c), i + 1) - 1.0, c.distortFactor as real) > 0.0
  {
    hide *;
    var f, x, y := Factor(c), Pow(Factor(c), i + 1) - 1.0, Pow(Factor(c), i + 2) - 1.0;
    ExponentialMiddle(c, i);
    ExponentialMiddle(c, i + 1);
    assert y == f * (x + 1.0) - 1.0 by { PowNext(f, i + 1); }
    ExtremesDecide(c, i);
    GrowsByMargin(f, x, y, c.delay, c.distortFactor);
  }

  /** For one configuration: delays grow at every iteration, whatever the draws, exactly when the factor
      outweighs the jitter. */
  lemma GrowsExactly(c: Config)
    requires c.delayType == Exponential && c.delay > 0.0
    ensures (forall i: nat :: GrowsAt(c, i)) <==>
      Factor(c) * (100.0 - c.distortFactor as real) >= 100.0 + c.distortFactor as real
  {
    var f, d := Factor(c), c.distortFactor as real;
    hide GrowsAt, Margin, Pow, Factor;
    if f * (100.0 - d) >= 100.0 + d {
      forall i: nat ensures GrowsAt(c, i) {
        GrowsAtExactly(c, i);
        ExponentialMiddle(c, i);
        MarginPositive(f, Pow(f, i + 1) - 1.0, d);
      }
    } else {
      var i := PowOvertakes(f, (f - 1.0) * (100.0 - d), 100.0 + d - f * (100.0 - d));
      GrowsAtExactly(c, i);
      MarginNegative(f, Pow(f, i + 1) - 1.0, d);
      assert !GrowsAt(c, i);
    }
  }

  lemma MarginPositive(f: real, x: real, d: real)
    requires x >= 1.0 && f >= 2.0 && d >= 0.0 && f * (100.0 - d) >= 100.0 + d
    ensures Margin(f, x, d) > 0.0
  {
    var e, u, g := f * (100.0 - d) - (100.0 + d), 100.0 - d, f - 1.0;
    PositiveFactor(f, u);
    assert Margin(f, x, d) == x * e + g * u;
    hide *;
    Scale(0.0, e, x);
    StrictScale(g, u);
  }

  lemma PositiveFactor(f: real, e: real)
    requires f > 0.0 && f * e > 0.0
    ensures e > 0.0
  {
  }

  lemma MarginNegative(f: real, x: real, d: real)
    requires x * (100.0 + d - f * (100.0 - d)) >= (f - 1.0) * (100.0 - d)
    ensures Margin(f, x, d) <= 0.0
  {
  }

  function Multiple(unit: real, times: nat): real { unit * times as real }

  lemma MultiplePositive(unit: real, times: nat)
    requires unit > 0.0
    ensures Multiple(unit, times) >= 0.0
  {
    Scale(0.0, times as real, unit);
  }

  lemma DistortedMultiple(unit: real, times: nat, p: int)
    ensures Distorted(Multiple(unit, times), p) == unit * ((times * p) as real / 100.0)
  {
    assert (times * p) as real == times as real * p as real;
  }

  lemma MultiplesCompare(unit: real, a: int, b: int)
    requires unit > 0.0
    ensures unit * (a as real / 100.0) < unit * (b as real / 100.0) <==> a < b
  {
    if a < b {
      StrictScale(b as real / 100.0 - a as real / 100.0, unit);
    } else {
      Scale(b as real / 100.0, a as real / 100.0, unit);
    }
  }

  lemma Expand(i: nat, d: nat)
    ensures (i + 1) * (100 + d) < (i + 2) * (100 - d) <==> (2 * i + 3) * d < 100
  {
    assert (i + 2) * (100 - d) - (i + 1) * (100 + d) == 100 - (2 * i + 3) * d;
  }

  lemma LinearMiddle(c: Config, i: nat)
    requires c.delayType == Linear
    ensures Middle(c, i) == Multiple(c.delay * c.factor, i + 1)
  {
  }

  /** Delays of the linear type grow at an iteration, whatever the draws, exactly while the iteration is early
      enough for the jitter. */
  lemma LinearGrowsAtExactly(c: Config, i: nat)
    requires c.delayType == Linear && c.delay * c.factor > 0.0
    ensures GrowsAt(c, i) <==> (2 * i + 3) * c.distortFactor < 100
  {
    hide *;
    var unit, d := c.delay * c.factor, c.distortFactor;
    LinearMiddle(c, i);
    LinearMiddle(c, i + 1);
    MultiplePositive(unit, i + 1);
    MultiplePositive(unit, i + 2);
    ExtremesDecide(c, i);
    MultiplesGrow(unit, i, d);
  }

  lemma MultiplesGrow(unit: real, i: nat, d: nat)
    requires unit > 0.0
    ensures Distorted(Multiple(unit, i + 1), 100 + d) < Distorted(Multiple(unit, i + 2), 100 - d) <==>
      (2 * i + 3) * d < 100
  {
    hide *;
    DistortedMultiple(unit, i + 1, 100 + d);
    DistortedMultiple(unit, i + 2, 100 - d);
    MultiplesCompare(unit, (i + 1) * (100 + d), (i + 2) * (100 - d));
    Expand(i, d);
  }

  /** They grow at every iteration exactly when there is no jitter at all. */
  lemma LinearGrowsExactly(c: Config)
    requires c.delayType == Linear && c.delay * c.factor > 0.0
    ensures (forall i: nat :: GrowsAt(c, i)) <==> c.distortFactor == 0
  {
    hide GrowsAt;
    if c.distortFactor == 0 {
      forall i: nat ensures GrowsAt(c, i) { LinearGrowsAtExactly(c, i); }
    } else {
      LinearGrowsAtExactly(c, 49);
      assert (2 * 49 + 3) * c.distortFactor >= 101;
    }
  }

  /** A distort factor of at most 33 is what makes delays grow for every factor. */
  lemma ThirtyThree(d: nat)
    ensures d <= 33 <==>
      forall c: Config, i: nat :: c.delayType == Exponential && c.delay > 0.0 && c.distortFactor == d ==> GrowsAt(c, i)
  {
    hide GrowsAt;
    if d <= 33 {
      forall c: Config, i: nat | c.delayType == Exponential && c.delay > 0.0 && c.distortFactor == d
        ensures GrowsAt(c, i)
      {
        Scale(2.0, Factor(c), 100.0 - d as real);
        GrowsExactly(c);
      }
    } else {
      var c := Config(1000.0, 2.0, d, 10, Exponential);
      GrowsExactly(c);
      var i: nat :| !GrowsAt(c, i);
    }
  }

  /** Delays strictly increase over the iterations below the retry count, whatever the draws. */
  lemma {:induction false} StrictlyIncreasing(c: Config, i: nat, j: nat, r: real, r': real)
    requires c.delayType == Exponential && c.delay > 0.0 && c.distortFactor <= 33
    requires i < j < c.retryCount && Draw(r) && Draw(r')
    ensures BackOffTime(c, i, r) < BackOffTime(c, j, r')
    decreases j
  {
    ThirtyThree(c.distortFactor);
    assert GrowsAt(c, j - 1);
    hide Middle, Distorted, Percent, Draw;
    assert BackOffTime(c, j - 1, r) < BackOffTime(c, j, r');
    if i < j - 1 {
      StrictlyIncreasing(c, i, j - 1, r, r);
    }
  }

  /** The last retry is sent without any delay: the growth ends there. */
  lemma LastRetryIsImmediate(c: Config, r: real, r': real)
    requires c.delayType == Exponential && c.delay > 0.0 && c.distortFactor < 100 && c.retryCount > 0 && Draw(r)
    ensures BackOffTime(c, c.retryCount, r') == 0.0 < BackOffTime(c, c.retryCount - 1, r)
  {
    ExponentialMiddle(c, c.retryCount - 1);
    PercentRange(c.distortFactor, r);
    hide Middle, Percent, Draw;
    StrictScale(Middle(c, c.retryCount - 1), Percent(c.distortFactor, r) as real / 100.0);
  }

  // ---------- the total wait ----------

  /** The waits of the first retries, one draw each. */
  function Total(c: Config, draws: seq<real>): real {
    if draws == [] then 0.0 else Total(c, draws[..|draws| - 1]) + BackOffTime(c, |draws| - 1, draws[|draws| - 1])
  }

  function Series(f: real, p: real): real
    requires f >= 2.0
  {
    f * (p - 1.0) / (f - 1.0)
  }

  /** The geometric sum of F^(i+1) - 1 for i below n, in closed form. */
  function GeometricSum(f: real, n: nat): real
    requires f >= 2.0
  {
    Series(f, Pow(f, n)) - n as real
  }

  function ClosedForm(c: Config, n: nat): real { HalfOf(GeometricSum(Factor(c), n), c.delay) }

  lemma SumGrows(f: real, n: nat)
    requires f >= 2.0
    ensures GeometricSum(f, 0) == 0.0
    ensures GeometricSum(f, n + 1) == GeometricSum(f, n) + (Pow(f, n + 1) - 1.0)
  {
    PowNext(f, n);
    OneTermMore(f, Pow(f, n), Pow(f, n + 1));
    assert Pow(f, 0) == 1.0;
    assert Series(f, 1.0) == 0.0;
    hide Pow, Series;
  }

  lemma OneTermMore(f: real, p: real, p': real)
    requires f >= 2.0 && p' == f * p
    ensures Series(f, p') == Series(f, p) + p'
  {
  }

  lemma ClosedFormGrows(c: Config, n: nat)
    requires c.delayType == Exponential
    ensures ClosedForm(c, 0) == 0.0
    ensures ClosedForm(c, n + 1) == ClosedForm(c, n) + Middle(c, n)
  {
    SumGrows(Factor(c), n);
    hide GeometricSum, Factor, Pow;
  }

  lemma {:induction false} TotalNear(c: Config, draws: seq<real>)
    requires c.delayType == Exponential && c.delay >= 0.0 && |draws| <= c.retryCount
    requires forall r :: r in draws ==> Draw(r)
    ensures Within(Total(c, draws), ClosedForm(c, |draws|), c.distortFactor)
  {
    hide ClosedForm, Middle, BackOffTime, Pow, Factor;
    if draws == [] {
      ClosedFormGrows(c, 0);
    } else {
      var n := |draws| - 1;
      TotalNear(c, draws[..n]);
      assert draws[n] in draws;
      ExponentialMiddle(c, n);
      WithinDistortion(c, n, draws[n]);
      ClosedFormGrows(c, n);
      hide Within, Draw;
      WithinAdds(Total(c, draws[..n]), ClosedForm(c, n), BackOffTime(c, n, draws[n]), Middle(c, n), c.distortFactor);
    }
  }

  lemma OneQuotient(q: real, g: real, x: real)
    requires g > 0.0 && q * g == x
    ensures q == x / g
  {
  }

  lemma SeriesIs(f: real, p: real, sum: real)
    requires f >= 2.0 && IsGeometric(f, p, sum)
    ensures Series(f, p) == sum
  {
    OneQuotient(sum, f - 1.0, f * (p - 1.0));
  }

  lemma HalfOfIs(x: real, delay: real, half: real)
    requires IsHalfOf(half, x, delay)
    ensures HalfOf(x, delay) == half
  {
  }

  /** `sum` is the geometric sum of the powers of f from the first to the n-th, of which p is the n-th. */
  predicate IsGeometric(f: real, p: real, sum: real) { sum * (f - 1.0) == f * (p - 1.0) }

  predicate IsHalfOf(half: real, x: real, delay: real) { 2.0 * half == x * delay }

  lemma ClosedFormIs(c: Config, n: nat, f: real, sum: real, middle: real)
    requires f == if c.factor < 2.0 then 2.0 else c.factor
    requires IsGeometric(f, Pow(f, n), sum) && IsHalfOf(middle, sum - n as real, c.delay)
    ensures ClosedForm(c, n) == middle
  {
    assert f == Factor(c);
    assert Series(f, Pow(f, n)) == sum by {
      hide Pow;
      SeriesIs(f, Pow(f, n), sum);
    }
    assert HalfOf(sum - n as real, c.delay) == middle by { HalfOfIs(sum - n as real, c.delay, middle); }
    hide HalfOf, Series, Pow, Factor, IsGeometric, IsHalfOf;
  }

  /** The total wait stays within the distort percentage of the closed form: half of the delay, times the geometric
      sum of the powers of the factor less the number of retries. */
  lemma TotalWait(c: Config, draws: seq<real>, f: real, sum: real, middle: real)
    requires c.delayType == Exponential && c.delay >= 0.0 && |draws| <= c.retryCount
    requires forall r :: r in draws ==> Draw(r)
    requires f == if c.factor < 2.0 then 2.0 else c.factor
    requires IsGeometric(f, Pow(f, |draws|), sum) && IsHalfOf(middle, sum - |draws| as real, c.delay)
    ensures Within(Total(c, draws), middle, c.distortFactor)
  {
    hide *;
    ClosedFormIs(c, |draws|, f, sum, middle);
    TotalNear(c, draws);
  }
}
