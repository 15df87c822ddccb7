/** The flat models: simple exponential smoothing, the prefix mean and Croston's
    method for intermittent demand, and the legacy point forecast. */
module Smoothing {
  import opened RealSeq
  import opened Models

  const SES_ALPHAS := [0.1, 0.2, 0.3, 0.5]
  const LEGACY_ALPHA := 0.3
  const CROSTON_ALPHA := 0.2

  // ---- simple exponential smoothing ----

  function Smoothed(values: seq<real>, alpha: real): real {
    if |values| == 0 then 0.0
    else if |values| == 1 then values[0]
    else alpha * values[|values| - 1] + (1.0 - alpha) * Smoothed(values[..|values| - 1], alpha)
  }

  method ExponentialSmoothing(values: seq<real>, alpha: real) returns (smoothed: real)
    ensures smoothed == Smoothed(values, alpha)
  {
    if |values| == 0 {
      return 0.0;
    }
    smoothed := values[0];
    for i := 1 to |values|
      invariant smoothed == Smoothed(values[..i], alpha)
    {
      assert values[..i + 1][..i] == values[..i];
      smoothed := alpha * values[i] + (1.0 - alpha) * smoothed;
    }
    assert values[..|values|] == values;
  }

  /** The running value after each observation. */
  function SesPath(values: seq<real>, alpha: real): (r: seq<real>)
    ensures |r| == |values|
  {
    seq(|values|, i requires 0 <= i < |values| => Smoothed(values[..i + 1], alpha))
  }

  method SesPathLoop(values: seq<real>, alpha: real) returns (fitted: seq<real>)
    ensures fitted == SesPath(values, alpha)
  {
    if |values| == 0 {
      return [];
    }
    fitted := [values[0]];
    for i := 1 to |values|
      invariant |fitted| == i
      invariant forall j :: 0 <= j < i ==> fitted[j] == Smoothed(values[..j + 1], alpha)
    {
      assert values[..i + 1][..i] == values[..i];
      fitted := fitted + [alpha * values[i] + (1.0 - alpha) * fitted[i - 1]];
    }
  }

  /** Weight smoothing gives each of n observations, oldest first. */
  function Weights(n: nat, alpha: real): (w: seq<real>)
    ensures |w| == n
  {
    if n == 0 then []
    else if n == 1 then [1.0]
    else
      var w := Weights(n - 1, alpha);
      seq(n, i requires 0 <= i < n => if i == n - 1 then alpha else (1.0 - alpha) * w[i])
  }

  function Weighted(w: seq<real>, values: seq<real>): (r: seq<real>)
    requires |w| == |values|
    ensures |r| == |w|
  {
    seq(|w|, i requires 0 <= i < |w| => Times(w[i], values[i]))
  }

  function Times(x: real, y: real): real {
    x * y
  }

  lemma TimesIs(x: real, y: real)
    ensures Times(x, y) == x * y
  {
  }

  lemma {:induction false} WeightsSumToOne(n: nat, alpha: real)
    requires n > 0
    ensures Sum(Weights(n, alpha)) == 1.0
  {
    if n > 1 {
      WeightsSumToOne(n - 1, alpha);
      SumScale(Weights(n - 1, alpha), Weights(n, alpha)[..n - 1], 1.0 - alpha);
    }
  }

  lemma {:induction false} WeightsNonneg(n: nat, alpha: real, i: nat)
    requires i < n && 0.0 <= alpha <= 1.0
    ensures Weights(n, alpha)[i] >= 0.0
  {
    if n > 1 && i < n - 1 {
      WeightsNonneg(n - 1, alpha, i);
      Prod(1.0 - alpha, Weights(n - 1, alpha)[i]);
    }
  }

  lemma {:induction false} SmoothedIsWeightedSum(values: seq<real>, alpha: real)
    requires |values| > 0
    ensures Smoothed(values, alpha) == Sum(Weighted(Weights(|values|, alpha), values))
  {
    hide Weights, Weighted, Sum, Times;
    var n := |values| - 1;
    if n == 0 {
      OneWeight(values, alpha);
    } else {
      SmoothedIsWeightedSum(values[..n], alpha);
      WeightedSumStep(values, alpha);
    }
  }

  lemma OneWeight(values: seq<real>, alpha: real)
    requires |values| == 1
    ensures Sum(Weighted(Weights(1, alpha), values)) == values[0]
  {
    assert Weighted(Weights(1, alpha), values) == [1.0 * values[0]];
  }

  lemma WeightedSumStep(values: seq<real>, alpha: real)
    requires |values| > 1
    ensures var n := |values| - 1;
      Sum(Weighted(Weights(n + 1, alpha), values))
      == (1.0 - alpha) * Sum(Weighted(Weights(n, alpha), values[..n])) + alpha * values[n]
  {
    hide Times, Sum;
    var n := |values| - 1;
    var v, w := Weights(n, alpha), Weights(n + 1, alpha);
    ScaledProducts(v, w[..n], values[..n], 1.0 - alpha);
    assert Weighted(w, values) == Weighted(w[..n], values[..n]) + [Times(w[n], values[n])];
    SumPush(Weighted(w[..n], values[..n]), Times(w[n], values[n]));
    TimesIs(alpha, values[n]);
  }

  lemma ScaledProducts(v: seq<real>, w: seq<real>, values: seq<real>, c: real)
    requires |v| == |w| == |values| && forall i :: 0 <= i < |v| ==> w[i] == c * v[i]
    ensures Sum(Weighted(w, values)) == c * Sum(Weighted(v, values))
  {
    forall i | 0 <= i < |v| ensures Weighted(w, values)[i] == c * Weighted(v, values)[i] {
      assert c * v[i] * values[i] == c * (v[i] * values[i]);
    }
    SumScale(Weighted(v, values), Weighted(w, values), c);
  }

  /** Smoothing is a convex combination of the history: the weights are
      non-negative, sum to one, and their weighted sum is the smoothed value. */
  lemma {:induction false} SmoothingIsConvex(values: seq<real>, alpha: real)
    requires |values| > 0 && 0.0 <= alpha <= 1.0
    ensures forall i :: 0 <= i < |values| ==> Weights(|values|, alpha)[i] >= 0.0
    ensures Sum(Weights(|values|, alpha)) == 1.0
    ensures Smoothed(values, alpha) == Sum(Weighted(Weights(|values|, alpha), values))
  {
    hide Weights, Weighted, Sum, Smoothed;
    forall i | 0 <= i < |values| ensures Weights(|values|, alpha)[i] >= 0.0 {
      WeightsNonneg(|values|, alpha, i);
    }
    WeightsSumToOne(|values|, alpha);
    SmoothedIsWeightedSum(values, alpha);
  }

  lemma MixBetween(a: real, b: real, alpha: real, lo: real, hi: real)
    requires lo <= a <= hi && lo <= b <= hi && 0.0 <= alpha <= 1.0
    ensures lo <= alpha * a + (1.0 - alpha) * b <= hi
  {
    MixMono(alpha, lo, lo, a, b);
    MixMono(alpha, a, b, hi, hi);
    MixConst(alpha, lo);
    MixConst(alpha, hi);
    assert Mix(alpha, a, b) == alpha * a + (1.0 - alpha) * b;
  }

  lemma {:induction false} SmoothedBetween(values: seq<real>, alpha: real, lo: real, hi: real)
    requires |values| > 0 && Within(values, lo, hi) && 0.0 <= alpha <= 1.0
    ensures lo <= Smoothed(values, alpha) <= hi
  {
    var n := |values| - 1;
    if n > 0 {
      SmoothedBetween(values[..n], alpha, lo, hi);
      MixBetween(values[n], Smoothed(values[..n], alpha), alpha, lo, hi);
    }
  }

  function BestAlpha(values: seq<real>): (alpha: real)
    ensures alpha in SES_ALPHAS && 0.0 < alpha < 1.0
  {
    SES_ALPHAS[ArgMin(seq(4, i requires 0 <= i < 4 => OneStepMse(values, SesPath(values, SES_ALPHAS[i]))))]
  }

  function FitSes(values: seq<real>): (m: FittedModel)
    ensures m.Flat? && m.name == Ses
  {
    if |values| == 0 then Flat(Ses, 0.0, [])
    else
      var fitted := SesPath(values, BestAlpha(values));
      Flat(Ses, fitted[|fitted| - 1], fitted)
  }

  lemma BestAlphaIsBest(values: seq<real>, alpha: real)
    requires alpha in SES_ALPHAS
    ensures !Cheaper(OneStepMse(values, SesPath(values, alpha)), OneStepMse(values, SesPath(values, BestAlpha(values))))
  {
    hide OneStepMse, SesPath;
    var costs := seq(4, i requires 0 <= i < 4 => OneStepMse(values, SesPath(values, SES_ALPHAS[i])));
    var k :| 0 <= k < 4 && SES_ALPHAS[k] == alpha;
    assert costs[k] == OneStepMse(values, SesPath(values, alpha));
  }

  /** The fitted smoothing is the one of the four with the least sum of squared errors, its
      level the smoothed history and its fitted values the running smoothed values. */
  lemma FitSesIsLeastSquares(values: seq<real>, alpha: real)
    requires alpha in {0.1, 0.2, 0.3, 0.5} && |values| >= 3
    ensures var m := FitSes(values); var best := BestAlpha(values);
      && best in {0.1, 0.2, 0.3, 0.5} && m.level == Smoothed(values, best)
      && (forall i :: 0 <= i < |values| ==> |m.fitted| == |values| && m.fitted[i] == Smoothed(values[..i + 1], best))
      && Sum(Squares(values, SesPath(values, best))) <= Sum(Squares(values, SesPath(values, alpha)))
  {
    hide OneStepMse, Squares, Sum, BestAlpha;
    BestAlphaIsBest(values, alpha);
    CheaperIsLessSquared(values, SesPath(values, alpha), SesPath(values, BestAlpha(values)));
    assert values[..|values|] == values;
  }

  // ---- legacy point forecast ----

  function LegacyDaily(values: seq<real>): real {
    if |values| == 0 then 0.0 else Max(Smoothed(values, LEGACY_ALPHA), Mean(values) * 0.5)
  }

  /** The legacy forecast of a history in [0, hi] lies between half its mean and hi. */
  lemma LegacyBetween(values: seq<real>, hi: real)
    requires |values| > 0 && Within(values, 0.0, hi)
    ensures 0.0 <= Mean(values) * 0.5 <= LegacyDaily(values) <= hi
  {
    SmoothedBetween(values, LEGACY_ALPHA, 0.0, hi);
    MeanBounds(values, 0.0, hi);
  }

  // ---- prefix mean ----

  function PrefixMeans(values: seq<real>): (r: seq<real>)
    ensures |r| == |values|
  {
    seq(|values|, i requires 0 <= i < |values| => if i == 0 then values[0] else Mean(values[..i]))
  }

  function FitMean(values: seq<real>): (m: FittedModel)
    ensures m.Flat? && m.name == Mean_
  {
    Flat(Mean_, if |values| == 0 then 0.0 else Mean(values), PrefixMeans(values))
  }

  method FitMeanLoop(values: seq<real>) returns (m: FittedModel)
    ensures m == FitMean(values)
  {
    var fitted: seq<real> := [];
    var runningSum := 0.0;
    for i := 0 to |values|
      invariant |fitted| == i && runningSum == Sum(values[..i])
      invariant forall j :: 0 <= j < i ==> fitted[j] == PrefixMeans(values)[j]
    {
      fitted := fitted + [if i == 0 then values[i] else runningSum / i as real];
      SumPrefix(values, i);
      runningSum := runningSum + values[i];
    }
    m := Flat(Mean_, if |values| == 0 then 0.0 else Mean(values), fitted);
  }

  // ---- Croston / Syntetos-Boylan ----

  datatype Demand = Demand(q: real, p: real, last: int, rate: real)  // last == -1: no sale seen yet

  // The Syntetos-Boylan corrected rate.
  function SbaRate(q: real, p: real): real
    requires p > 0.0
  {
    (q / p) * (1.0 - CROSTON_ALPHA / 2.0)
  }

  function Observe(s: Demand, t: nat, v: real): Demand {
    if v <= 0.0 then s
    else
      var q := if s.last < 0 then v else CROSTON_ALPHA * v + (1.0 - CROSTON_ALPHA) * s.q;
      var p := if s.last < 0 then 1.0 else CROSTON_ALPHA * (t - s.last) as real + (1.0 - CROSTON_ALPHA) * s.p;
      Demand(q, p, t, if p > 0.0 && q > 0.0 then SbaRate(q, p) else s.rate)
  }

  function CrostonAfter(values: seq<real>, t: nat): Demand
    requires t <= |values|
  {
    if t == 0 then Demand(0.0, 0.0, -1, 0.0) else Observe(CrostonAfter(values, t - 1), t - 1, values[t - 1])
  }

  function CrostonFitted(values: seq<real>): (r: seq<real>)
    ensures |r| == |values|
  {
    seq(|values|, t requires 0 <= t < |values| => CrostonAfter(values, t).rate)
  }

  function FitCroston(values: seq<real>): (m: FittedModel)
    ensures m.Flat? && m.name == Croston
  {
    Flat(Croston, CrostonAfter(values, |values|).rate, CrostonFitted(values))
  }

  method FitCrostonLoop(values: seq<real>) returns (m: FittedModel)
    ensures m == FitCroston(values)
  {
    hide SbaRate;
    var q, p, rate := 0.0, 0.0, 0.0;
    var last := -1;
    var fitted: seq<real> := [];
    for t := 0 to |values|
      invariant Demand(q, p, last, rate) == CrostonAfter(values, t)
      invariant |fitted| == t && forall j :: 0 <= j < t ==> fitted[j] == CrostonAfter(values, j).rate
    {
      ghost var before := Demand(q, p, last, rate);
      var v := values[t];
      fitted := fitted + [rate];
      if v > 0.0 {
        if last < 0 {
          q, p := v, 1.0;
        } else {
          var interval := t - last;
          q := CROSTON_ALPHA * v + (1.0 - CROSTON_ALPHA) * q;
          p := CROSTON_ALPHA * interval as real + (1.0 - CROSTON_ALPHA) * p;
        }
        last := t;
        if p > 0.0 && q > 0.0 {
          rate := SbaRate(q, p);
        }
      }
      assert Demand(q, p, last, rate) == Observe(before, t, v);
    }
    m := Flat(Croston, rate, fitted);
  }

  ghost predicate Successive(values: seq<real>, i: nat, j: nat)
    requires i < j < |values|
  {
    values[i] > 0.0 && values[j] > 0.0 && forall k :: i < k < j ==> values[k] <= 0.0
  }

  // Any two successive sales lie at most gap days apart.
  ghost predicate GapsAtMost(values: seq<real>, gap: nat) {
    forall i, j :: 0 <= i < j < |values| && Successive(values, i, j) ==> j - i <= gap
  }

  ghost predicate SalesWithin(values: seq<real>, lo: real, hi: real) {
    forall i :: 0 <= i < |values| && values[i] > 0.0 ==> lo <= values[i] <= hi
  }

  /** After the first sale: the size estimate stays between the smallest and the
      largest sale, the interval estimate between 1 and the longest gap, and the
      rate is nine tenths of their ratio. Before it the rate is zero. */
  lemma {:induction false} CrostonBounds(values: seq<real>, t: nat, lo: real, hi: real, gap: nat)
    requires t <= |values| && 0.0 < lo <= hi && gap >= 1
    requires SalesWithin(values, lo, hi) && GapsAtMost(values, gap)
    ensures var s := CrostonAfter(values, t);
      if s.last < 0 then s.rate == 0.0 && s.last == -1 && forall k :: 0 <= k < t ==> values[k] <= 0.0
      else
        && s.last < t && values[s.last] > 0.0 && (forall k :: s.last < k < t ==> values[k] <= 0.0)
        && lo <= s.q <= hi && 1.0 <= s.p <= gap as real && s.rate == SbaRate(s.q, s.p)
  {
    hide SbaRate;
    if t > 0 {
      CrostonBounds(values, t - 1, lo, hi, gap);
      var s := CrostonAfter(values, t - 1);
      var v := values[t - 1];
      if v > 0.0 && s.last >= 0 {
        assert Successive(values, s.last, t - 1);
      }
    }
  }

  /** Croston's rate never exceeds nine tenths of the largest sale, and once a
      sale has been seen it is at least nine tenths of the smallest over the longest gap. */
  lemma {:induction false} CrostonRateBounds(values: seq<real>, lo: real, hi: real, gap: nat)
    requires 0.0 < lo <= hi && gap >= 1 && SalesWithin(values, lo, hi) && GapsAtMost(values, gap)
    ensures 0.0 <= FitCroston(values).level <= 0.9 * hi
    ensures (exists k :: 0 <= k < |values| && values[k] > 0.0) ==> 0.9 * lo / gap as real <= FitCroston(values).level
  {
    hide SbaRate;
    CrostonBounds(values, |values|, lo, hi, gap);
    var s := CrostonAfter(values, |values|);
    if s.last >= 0 {
      RatioBounds(s.q, s.p, lo, hi, gap as real);
    }
  }

  lemma RatioBounds(q: real, p: real, lo: real, hi: real, gap: real)
    requires 0.0 < lo <= q <= hi && 1.0 <= p <= gap
    ensures 0.0 <= 0.9 * lo / gap <= SbaRate(q, p) <= 0.9 * hi
  {
    MulMono(1.0, p, hi);
    var r := lo / gap;
    assert r * gap == lo;
    MulMono(p, gap, r);
    DivBounds(q, p, r, hi);
  }

  lemma {:induction false} CrostonSeesOnlyThePast(a: seq<real>, b: seq<real>, t: nat)
    requires t <= |a| && t <= |b| && a[..t] == b[..t]
    ensures CrostonAfter(a, t) == CrostonAfter(b, t)
  {
    if t > 0 {
      assert a[..t - 1] == a[..t][..t - 1] == b[..t - 1];
      assert a[t - 1] == a[..t][t - 1] == b[t - 1];
      CrostonSeesOnlyThePast(a, b, t - 1);
    }
  }

  /** Croston's fitted value for day t is a genuine forecast: it depends on days before t only. */
  lemma CrostonIsCausal(a: seq<real>, b: seq<real>, t: nat)
    requires t < |a| && t < |b| && a[..t] == b[..t]
    ensures CrostonFitted(a)[t] == CrostonFitted(b)[t]
  {
    CrostonSeesOnlyThePast(a, b, t);
  }

  /** The mean model conserves: its level times the days is what was sold, and each fitted
      value times the days before it is what was sold before it; the first repeats its day. */
  lemma MeanConserves(values: seq<real>, t: nat)
    requires t < |values|
    ensures FitMean(values).level * |values| as real == Sum(values)
    ensures |FitMean(values).fitted| == |values| && FitMean(values).fitted[0] == values[0]
    ensures t > 0 ==> FitMean(values).fitted[t] * t as real == Sum(values[..t])
  {
    assert t > 0 ==> FitMean(values).fitted[t] == Mean(values[..t]);
    hide Sum;
    TimesBack(Sum(values), |values| as real);
    if t > 0 { TimesBack(Sum(values[..t]), t as real); }
  }

  lemma TimesBack(a: real, n: real)
    requires n > 0.0
    ensures a / n * n == a
  {
  }

  // A sale of v on the first day and on every g-th day after it.
  ghost predicate Regular(values: seq<real>, v: real, g: nat)
    requires g > 0
  {
    forall i :: 0 <= i < |values| ==> values[i] == if i % g == 0 then v else 0.0
  }

  // The estimates after the (k+1)-th regular sale.
  ghost predicate Settled(s: Demand, v: real, g: nat, k: nat) {
    && s.q == v && s.p == g as real - (g - 1) as real * Pow(0.8, k) && s.p >= 1.0
    && s.last == k * g && s.rate == v / s.p * 0.9
  }

  /** Under regular demand the size estimate is exact, and the interval estimate closes a
      fifth of what is left of its distance to the true interval at every sale:
      after the (k+1)-th sale it is g - (g-1) * 0.8^k. */
  lemma {:induction false} RegularDemand(values: seq<real>, t: nat, v: real, g: nat, k: nat)
    requires v > 0.0 && g > 0 && Regular(values, v, g) && k * g < t <= |values| && t <= (k + 1) * g
    ensures Settled(CrostonAfter(values, t), v, g, k)
  {
    SaleOn(values, t - 1, v, g);
    hide Settled, Observe;
    if t - 1 > k * g {
      RegularDemand(values, t - 1, v, g, k);
      NotMultiple(t - 1, g, k);
      NoSale(CrostonAfter(values, t - 1), t - 1);
    } else if k == 0 {
      MultipleHits(g, k);
      BeforeFirst(values, v, g);
      FirstSale(CrostonAfter(values, 0), v, g);
    } else {
      MultipleHits(g, k);
      LastBefore(g, k);
      RegularDemand(values, t - 1, v, g, k - 1);
      NextSale(CrostonAfter(values, t - 1), t - 1, v, g, k);
    }
  }

  lemma SaleOn(values: seq<real>, t: nat, v: real, g: nat)
    requires g > 0 && Regular(values, v, g) && t < |values|
    ensures values[t] == if t % g == 0 then v else 0.0
    ensures CrostonAfter(values, t + 1) == Observe(CrostonAfter(values, t), t, values[t])
  {
  }

  lemma BeforeFirst(values: seq<real>, v: real, g: nat)
    ensures CrostonAfter(values, 0) == Demand(0.0, 0.0, -1, 0.0) && Pow(0.8, 0) == 1.0
  {
  }

  lemma LastBefore(g: nat, k: nat)
    requires g > 0 && k > 0
    ensures (k - 1) * g < k * g == (k - 1 + 1) * g && (k - 1) * g == k * g - g
  {
  }

  lemma NoSale(s: Demand, t: nat)
    ensures Observe(s, t, 0.0) == s
  {
  }

  lemma FirstSale(s: Demand, v: real, g: nat)
    requires s.last == -1 && v > 0.0 && g > 0
    ensures Settled(Observe(s, 0, v), v, g, 0)
  {
    assert Pow(0.8, 0) == 1.0;
    assert (g - 1) as real * 1.0 == g as real - 1.0;
  }

  // The next sale of the same size, g days after the last.
  lemma NextSale(s: Demand, t: nat, v: real, g: nat, k: nat)
    requires v > 0.0 && g > 0 && k > 0 && t == k * g && (k - 1) * g == t - g && Settled(s, v, g, k - 1)
    ensures Settled(Observe(s, t, v), v, g, k)
  {
    PowerSmall(k - 1);
    IntervalStep(g, Pow(0.8, k - 1), Pow(0.8, k));
    hide Pow;
    var p := 0.2 * g as real + 0.8 * s.p;
    assert CROSTON_ALPHA * (t - s.last) as real + (1.0 - CROSTON_ALPHA) * s.p == p;
    assert CROSTON_ALPHA * v + (1.0 - CROSTON_ALPHA) * v == v;
  }

  lemma NotMultiple(t: nat, g: nat, k: nat)
    requires g > 0 && k * g < t < (k + 1) * g
    ensures t % g != 0
  {
    var j := t / g;
    assert t == j * g + t % g;
    assert j <= k ==> j * g <= k * g;
    assert j >= k + 1 ==> j * g >= (k + 1) * g;
  }

  lemma MultipleHits(g: nat, k: nat)
    requires g > 0
    ensures (k * g) % g == 0
  {
    var q, r := (k * g) / g, (k * g) % g;
    assert k * g == q * g + r;
    assert q < k ==> (q + 1) * g <= k * g;
    assert q > k ==> q * g >= (k + 1) * g;
  }

  lemma {:induction false} PowerSmall(k: nat)
    ensures 0.0 < Pow(0.8, k) <= 1.0
  {
    if k > 0 { PowerSmall(k - 1); }
  }

  lemma IntervalStep(g: nat, w: real, w': real)
    requires g > 0 && w' == 0.8 * w && 0.0 < w <= 1.0
    ensures 0.2 * g as real + 0.8 * (g as real - (g - 1) as real * w) == g as real - (g - 1) as real * w' >= 1.0
  {
    var d := (g - 1) as real;
    assert d * w' == 0.8 * (d * w);
    assert d * w' <= d;
  }

  // ---- every flat model stays inside the range of the history ----

  lemma {:induction false} FlatModelsBetween(values: seq<real>, hi: real)
    requires Within(values, 0.0, hi) && hi >= 0.0
    ensures 0.0 <= FitSes(values).level <= hi
    ensures 0.0 <= FitMean(values).level <= hi
    ensures 0.0 <= FitCroston(values).level <= hi
  {
    if |values| > 0 {
      assert values[..|values|] == values;
      SmoothedBetween(values, BestAlpha(values), 0.0, hi);
      MeanBounds(values, 0.0, hi);
    }
    if k :| 0 <= k < |values| && values[k] > 0.0 {
      var lo := LeastSale(values);
      CrostonRateBounds(values, lo, hi, |values|);
    } else {
      NoSaleNoRate(values, |values|);
    }
  }

  lemma {:induction false} NoSaleNoRate(values: seq<real>, t: nat)
    requires t <= |values| && forall k :: 0 <= k < |values| ==> values[k] <= 0.0
    ensures CrostonAfter(values, t).rate == 0.0
  {
    if t > 0 { NoSaleNoRate(values, t - 1); }
  }

  lemma {:induction false} LeastSale(values: seq<real>) returns (lo: real)
    ensures lo > 0.0
    ensures forall i :: 0 <= i < |values| && values[i] > 0.0 ==> lo <= values[i]
  {
    if |values| == 0 {
      lo := 1.0;
    } else {
      var n := |values| - 1;
      lo := LeastSale(values[..n]);
      if values[n] > 0.0 { lo := Min(lo, values[n]); }
    }
  }
}
