/** Hold-out accuracy figures and the inverse-error blend of two candidates. */
module Scoring {
  import opened RealSeq
  import opened Models

  const BLEND_RELATIVE_TOLERANCE := 0.10
  const MIN_SCORE := 0.000001

  datatype ModelScore = ModelScore(name: ModelName, wmape: real, bias: real, residuals: seq<real>)

  function ZipLength(a: seq<real>, b: seq<real>): nat {
    if |a| < |b| then |a| else |b|
  }

  function Errors(predicted: seq<real>, actual: seq<real>): (r: seq<real>)
    ensures |r| == ZipLength(predicted, actual)
  {
    seq(ZipLength(predicted, actual), i requires 0 <= i < ZipLength(predicted, actual) => predicted[i] - actual[i])
  }

  function Magnitudes(s: seq<real>): (r: seq<real>)
    ensures |r| == |s|
  {
    seq(|s|, i requires 0 <= i < |s| => Abs(s[i]))
  }

  function Scale(actual: seq<real>): (s: real)
    ensures s >= 1.0
  {
    Max(Sum(Magnitudes(actual)), 1.0)
  }

  function Wmape(predicted: seq<real>, actual: seq<real>): real {
    if |actual| == 0 then 0.0
    else Sum(Magnitudes(Errors(predicted, actual))) / Scale(actual)
  }

  function BiasPct(predicted: seq<real>, actual: seq<real>): real {
    if |actual| == 0 then 0.0
    else Sum(Errors(predicted, actual)) / Max(Sum(actual), 1.0)
  }

  function ScoreFit(fit: FittedModel, holdout: seq<real>): ModelScore
    requires WellFormed(fit)
  {
    var preds := Predict(fit, |holdout|);
    ModelScore(NameOf(fit), Round4(Wmape(preds, holdout)), Round4(BiasPct(preds, holdout)),
               seq(|holdout|, i requires 0 <= i < |holdout| => preds[i] - holdout[i]))
  }

  function InverseWeight(score: real): (w: real)
    ensures w > 0.0
  {
    1.0 / Max(score, MIN_SCORE)
  }

  // Share of the first candidate in the blend of two.
  function Share(first: real, second: real): (s: real)
    ensures 0.0 < s < 1.0
  {
    var (a, b) := (InverseWeight(first), InverseWeight(second));
    a / (a + b)
  }

  function Blend(pathA: seq<real>, pathB: seq<real>, first: real, second: real): (r: seq<real>)
    ensures |r| == ZipLength(pathA, pathB)
  {
    var (a, b) := (InverseWeight(first), InverseWeight(second));
    seq(ZipLength(pathA, pathB), i requires 0 <= i < ZipLength(pathA, pathB) => (a * pathA[i] + b * pathB[i]) / (a + b))
  }

  function Clipped(s: seq<real>): (r: seq<real>)
    ensures |r| == |s| && forall i :: 0 <= i < |r| ==> r[i] >= 0.0
  {
    seq(|s|, i requires 0 <= i < |s| => Max(0.0, s[i]))
  }

  // ---- generic facts about the figures ----

  lemma WmapeMono(p: seq<real>, q: seq<real>, actual: seq<real>)
    requires |p| == |q|
    requires forall i :: 0 <= i < ZipLength(p, actual) ==> Abs(p[i] - actual[i]) <= Abs(q[i] - actual[i])
    ensures Wmape(p, actual) <= Wmape(q, actual)
  {
    var ep, eq := Magnitudes(Errors(p, actual)), Magnitudes(Errors(q, actual));
    SumMono(ep, eq);
  }

  lemma WmapeNonneg(p: seq<real>, actual: seq<real>)
    ensures Wmape(p, actual) >= 0.0
  {
    var e := Magnitudes(Errors(p, actual));
    SumNonneg(e);
    DivBounds(Sum(e), Scale(actual), 0.0, Sum(e));
  }

  /** The wMAPE is the total absolute error over the total demand, at least one. */
  lemma WmapeIs(p: seq<real>, actual: seq<real>, misses: seq<real>, demand: seq<real>)
    requires |p| == |actual| == |misses| == |demand| > 0
    requires forall i :: 0 <= i < |p| ==> misses[i] == Abs(p[i] - actual[i]) && demand[i] == Abs(actual[i])
    ensures Wmape(p, actual) == Sum(misses) / Max(Sum(demand), 1.0)
  {
    assert Magnitudes(Errors(p, actual)) == misses;
    assert Magnitudes(actual) == demand;
    hide Sum, Errors, Magnitudes;
  }

  /** The bias is the net error over the net demand, at least one. */
  lemma BiasIs(p: seq<real>, actual: seq<real>)
    requires |p| == |actual| > 0
    ensures BiasPct(p, actual) == (Sum(p) - Sum(actual)) / Max(Sum(actual), 1.0)
  {
    NetError(p, actual);
    hide Sum, Errors;
  }

  lemma {:induction false} NetError(p: seq<real>, actual: seq<real>)
    requires |p| == |actual|
    ensures Sum(Errors(p, actual)) == Sum(p) - Sum(actual)
  {
    SumAdd(Errors(p, actual), actual, p);
  }

  /** Clipping a forecast at zero never increases its error against non-negative demand. */
  lemma ClippingNeverHurts(p: seq<real>, actual: seq<real>)
    requires forall i :: 0 <= i < |actual| ==> actual[i] >= 0.0
    ensures Wmape(Clipped(p), actual) <= Wmape(p, actual)
  {
    WmapeMono(Clipped(p), p, actual);
  }

  /** For non-negative demand the magnitude of the bias never exceeds the wMAPE. */
  lemma BiasBelowWmape(p: seq<real>, actual: seq<real>)
    requires forall i :: 0 <= i < |actual| ==> actual[i] >= 0.0
    ensures Abs(BiasPct(p, actual)) <= Wmape(p, actual)
  {
    if |actual| > 0 {
      assert Magnitudes(actual) == actual;
      var e := Errors(p, actual);
      var m := Magnitudes(e);
      SumMono(e, m);
      var neg := seq(|m|, i requires 0 <= i < |m| => -1.0 * m[i]);
      SumScale(m, neg, -1.0);
      SumMono(neg, e);
      assert (-1.0 * Sum(m)) / Scale(actual) == -1.0 * (Sum(m) / Scale(actual));
    }
  }

  // ---- blending ----

  lemma BlendIsShare(a: real, b: real, x: real, y: real)
    requires a > 0.0 && b > 0.0
    ensures (a * x + b * y) / (a + b) == Mix(a / (a + b), x, y)
  {
    var t := a + b;
    var s := a / t;
    assert s * t == a;
    var c := s * x + (1.0 - s) * y;
    assert c * t == a * x + b * y by {
      assert s * x * t == a * x;
      assert (1.0 - s) * t == b;
      assert (1.0 - s) * y * t == b * y;
    }
  }

  lemma MixedError(s: real, x: real, y: real, z: real)
    requires 0.0 <= s <= 1.0
    ensures Abs(Mix(s, x, y) - z) <= Mix(s, Abs(x - z), Abs(y - z))
  {
    hide Mix;
    MixShift(s, x, y, -z);
    MixAbs(s, x - z, y - z);
  }

  lemma {:induction false} MixSum(s: real, a: seq<real>, b: seq<real>, c: seq<real>)
    requires |a| == |b| == |c| && forall i :: 0 <= i < |c| ==> c[i] == Mix(s, a[i], b[i])
    ensures Sum(c) == Mix(s, Sum(a), Sum(b))
  {
    hide Mix;
    if |c| == 0 {
      MixConst(s, 0.0);
    } else {
      var n := |c| - 1;
      MixSum(s, a[..n], b[..n], c[..n]);
      MixAdd(s, Sum(a[..n]), Sum(b[..n]), a[n], b[n]);
    }
  }

  lemma MixErrors(c: seq<real>, p: seq<real>, q: seq<real>, actual: seq<real>, s: real)
    requires |c| == |p| == |q| == |actual| && 0.0 <= s <= 1.0
    requires forall i :: 0 <= i < |c| ==> c[i] == Mix(s, p[i], q[i])
    ensures Sum(Magnitudes(Errors(c, actual)))
         <= Mix(s, Sum(Magnitudes(Errors(p, actual))), Sum(Magnitudes(Errors(q, actual))))
  {
    hide Mix, Sum;
    var ep, eq, ec := Magnitudes(Errors(p, actual)), Magnitudes(Errors(q, actual)), Magnitudes(Errors(c, actual));
    var mix := seq(|c|, i requires 0 <= i < |c| => Mix(s, ep[i], eq[i]));
    forall i | 0 <= i < |c| ensures ec[i] <= mix[i] {
      MixedError(s, p[i], q[i], actual[i]);
    }
    SumMono(ec, mix);
    MixSum(s, ep, eq, mix);
  }

  // The error of any pointwise mix is at most the same mix of the errors.
  lemma MixWmape(c: seq<real>, p: seq<real>, q: seq<real>, actual: seq<real>, s: real)
    requires |c| == |p| == |q| == |actual| && 0.0 <= s <= 1.0
    requires forall i :: 0 <= i < |c| ==> c[i] == Mix(s, p[i], q[i])
    ensures Wmape(c, actual) <= Mix(s, Wmape(p, actual), Wmape(q, actual))
  {
    hide Mix, Magnitudes, Errors, Sum, Scale;
    if |actual| == 0 {
      MixConst(s, 0.0);
    } else {
      MixErrors(c, p, q, actual, s);
      var x, y := Sum(Magnitudes(Errors(p, actual))), Sum(Magnitudes(Errors(q, actual)));
      MixQuotient(s, x, y, Scale(actual));
    }
  }

  lemma MixQuotient(s: real, a: real, b: real, t: real)
    requires t > 0.0
    ensures Mix(s, a, b) / t == Mix(s, a / t, b / t)
  {
    var x, y := a / t, b / t;
    assert x * t == a && y * t == b;
    var m := s * x + (1.0 - s) * y;
    assert m * t == s * (x * t) + (1.0 - s) * (y * t);
  }

  /** The blend's wMAPE is at most the share-weighted mean of the two candidates'. */
  lemma BlendIsConvex(p: seq<real>, q: seq<real>, actual: seq<real>, first: real, second: real)
    requires |p| == |q| == |actual|
    ensures Wmape(Blend(p, q, first, second), actual)
         <= Mix(Share(first, second), Wmape(p, actual), Wmape(q, actual))
  {
    hide Mix, Wmape, InverseWeight;
    var c := Blend(p, q, first, second);
    var s := Share(first, second);
    forall i | 0 <= i < |c| ensures c[i] == Mix(s, p[i], q[i]) {
      BlendIsShare(InverseWeight(first), InverseWeight(second), p[i], q[i]);
    }
    MixWmape(c, p, q, actual, s);
  }

  // The share-weighted mean of the two scores themselves is their harmonic mean.
  lemma ShareGivesHarmonicMean(x: real, y: real)
    requires x >= MIN_SCORE && y >= MIN_SCORE
    ensures Share(x, y) == y / (x + y)
    ensures Mix(Share(x, y), x, y) == 2.0 * x * y / (x + y)
  {
    var a, b := 1.0 / x, 1.0 / y;
    assert a * x == 1.0 && b * y == 1.0;
    var s := y / (x + y);
    assert s * (x + y) == y;
    assert (a + b) * (x * y) == x + y by {
      assert a * (x * y) == y && b * (x * y) == x;
    }
    assert s * (a + b) == a by {
      assert s * (a + b) * (x * y) == s * (x + y) == y == a * (x * y);
      Cancel(s * (a + b), a, x * y);
    }
    assert a / (a + b) == s;
  }

  lemma Cancel(a: real, b: real, c: real)
    requires a * c == b * c && c > 0.0
    ensures a == b
  {
    assert (a - b) * c == 0.0;
  }

  /** Two scores within the 10% tolerance: their harmonic mean is at most 22/21 of the better. */
  lemma HarmonicWithinTolerance(x: real, y: real)
    requires 0.0 < x <= y <= x * (1.0 + BLEND_RELATIVE_TOLERANCE)
    ensures 2.0 * x * y / (x + y) <= x * 22.0 / 21.0
  {
    var t := x + y;
    var m := 2.0 * x * y / t;
    assert m * t == 2.0 * x * y;
    assert 2.0 * y * 21.0 <= 22.0 * t;
    MulMono(42.0 * y, 22.0 * t, x);
    DivBounds(2.0 * x * y, t, m, x * 22.0 / 21.0);
  }

  /** The blend the selector makes of the two best candidates, applied to their
      hold-out forecasts. With scores that are within eps of the true wMAPEs, the
      blend's true wMAPE is at most 1.1 times the best score plus eps, and at most
      22/21 of it plus eps once the best score reaches the floor of the weights. */
  lemma {:induction false} BlendWithinTolerance(p: seq<real>, q: seq<real>, actual: seq<real>, first: real, second: real, eps: real)
    requires |p| == |q| == |actual|
    requires Wmape(p, actual) <= first + eps && Wmape(q, actual) <= second + eps
    requires 0.0 <= first <= second <= first * (1.0 + BLEND_RELATIVE_TOLERANCE)
    ensures Wmape(Blend(p, q, first, second), actual) <= 1.1 * first + eps
    ensures first >= MIN_SCORE ==> Wmape(Blend(p, q, first, second), actual) <= first * 22.0 / 21.0 + eps
  {
    hide Blend, Wmape, Share, Mix;
    BlendIsConvex(p, q, actual, first, second);
    var s := Share(first, second);
    MixedScores(s, Wmape(p, actual), Wmape(q, actual), first, second, eps);
    if first >= MIN_SCORE {
      ShareGivesHarmonicMean(first, second);
      HarmonicWithinTolerance(first, second);
    }
  }

  lemma MixedScores(s: real, x: real, y: real, first: real, second: real, eps: real)
    requires 0.0 <= s <= 1.0 && x <= first + eps && y <= second + eps && first <= second
    ensures Mix(s, x, y) <= Mix(s, first, second) + eps <= second + eps
  {
    hide Mix;
    MixMono(s, x, y, first + eps, second + eps);
    MixShift(s, first, second, eps);
    MixMono(s, first, second, second, second);
    MixConst(s, second);
  }

  /** With the rounded scores the code compares, the tolerance holds up to the rounding of a score. */
  lemma RoundedBlendWithinTolerance(p: seq<real>, q: seq<real>, actual: seq<real>)
    requires |p| == |q| == |actual|
    requires var (a, b) := (Round4(Wmape(p, actual)), Round4(Wmape(q, actual)));
      a <= b <= a * (1.0 + BLEND_RELATIVE_TOLERANCE)
    ensures var (a, b) := (Round4(Wmape(p, actual)), Round4(Wmape(q, actual)));
      Wmape(Blend(p, q, a, b), actual) <= a * 22.0 / 21.0 + 0.00005
  {
    hide Blend, Wmape, Round4;
    var a, b := Round4(Wmape(p, actual)), Round4(Wmape(q, actual));
    WmapeNonneg(p, actual);
    RoundMono(0.0, Wmape(p, actual));
    RoundError(Wmape(p, actual));
    RoundError(Wmape(q, actual));
    BlendWithinTolerance(p, q, actual, a, b, 0.00005);
    RoundedScoreGrid(Wmape(p, actual));
  }

  // A rounded score is zero or clears the floor of the weights.
  lemma RoundedScoreGrid(x: real)
    requires x >= 0.0
    ensures Round4(x) == 0.0 || Round4(x) >= 0.0001
  {
    RoundMono(0.0, x);
  }
}
