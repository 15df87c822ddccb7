/** Damped Holt smoothing: the state recursion, its stability over histories of
    any length, and the agreement of the closed-form forecast with the recursion. */
module HoltTrend {
  import opened RealSeq
  import opened Models

  const HOLT_ALPHAS := [0.2, 0.3, 0.5]
  const HOLT_BETAS := [0.05, 0.1, 0.2]

  datatype State = State(level: real, trend: real)

  function Forecast1(s: State): real {
    s.level + DAMPING_PHI * s.trend
  }

  function Step(s: State, v: real, alpha: real, beta: real): State {
    var level := alpha * v + (1.0 - alpha) * Forecast1(s);
    State(level, beta * (level - s.level) + (1.0 - beta) * DAMPING_PHI * s.trend)
  }

  /** State after the first t values; the first trend looks one value ahead. */
  function After(values: seq<real>, t: nat, alpha: real, beta: real): State
    requires 1 <= t <= |values|
  {
    if t == 1 then State(values[0], if |values| > 1 then values[1] - values[0] else 0.0)
    else Step(After(values, t - 1, alpha, beta), values[t - 1], alpha, beta)
  }

  function Terminal(values: seq<real>, alpha: real, beta: real): State {
    if |values| == 0 then State(0.0, 0.0) else After(values, |values|, alpha, beta)
  }

  function FittedAt(values: seq<real>, t: nat, alpha: real, beta: real): real
    requires t < |values|
  {
    if t == 0 then values[0] else Forecast1(After(values, t, alpha, beta))
  }

  function FittedPath(values: seq<real>, alpha: real, beta: real): (r: seq<real>)
    ensures |r| == |values|
  {
    seq(|values|, t requires 0 <= t < |values| => FittedAt(values, t, alpha, beta))
  }

  method HoltState(values: seq<real>, alpha: real, beta: real)
    returns (fitted: seq<real>, level: real, trend: real)
    ensures fitted == FittedPath(values, alpha, beta)
    ensures State(level, trend) == Terminal(values, alpha, beta)
  {
    if |values| == 0 {
      return [], 0.0, 0.0;
    }
    level := values[0];
    trend := if |values| > 1 then values[1] - values[0] else 0.0;
    fitted := [level];
    for t := 1 to |values|
      invariant State(level, trend) == After(values, t, alpha, beta)
      invariant |fitted| == t && forall j :: 0 <= j < t ==> fitted[j] == FittedAt(values, j, alpha, beta)
    {
      var pred := level + DAMPING_PHI * trend;
      fitted := fitted + [pred];
      level, trend := Advance(level, trend, values[t], alpha, beta);
    }
  }

  // One pass of the loop body, split off so that its products stay out of the loop's proof.
  method Advance(level: real, trend: real, v: real, alpha: real, beta: real) returns (newLevel: real, newTrend: real)
    ensures State(newLevel, newTrend) == Step(State(level, trend), v, alpha, beta)
  {
    newLevel := alpha * v + (1.0 - alpha) * (level + DAMPING_PHI * trend);
    newTrend := beta * (newLevel - level) + (1.0 - beta) * DAMPING_PHI * trend;
  }

  function Combos(): (r: seq<(real, real)>)
    ensures |r| == 9
  {
    [(0.2, 0.05), (0.2, 0.1), (0.2, 0.2),
     (0.3, 0.05), (0.3, 0.1), (0.3, 0.2),
     (0.5, 0.05), (0.5, 0.1), (0.5, 0.2)]
  }

  predicate InGrid(alpha: real, beta: real) {
    alpha in HOLT_ALPHAS && beta in HOLT_BETAS
  }

  function BestCombo(values: seq<real>): (ab: (real, real))
    ensures InGrid(ab.0, ab.1)
  {
    var combos := Combos();
    combos[ArgMin(seq(9, i requires 0 <= i < 9 => OneStepMse(values, FittedPath(values, combos[i].0, combos[i].1))))]
  }

  function ComboCost(values: seq<real>, alpha: real, beta: real): Cost {
    OneStepMse(values, FittedPath(values, alpha, beta))
  }

  lemma ComboAt(alpha: real, beta: real) returns (k: nat)
    requires InGrid(alpha, beta)
    ensures k < 9 && Combos()[k] == (alpha, beta)
  {
    var i :| 0 <= i < 3 && HOLT_ALPHAS[i] == alpha;
    var j :| 0 <= j < 3 && HOLT_BETAS[j] == beta;
    k := 3 * i + j;
  }

  /** No pair of the grid has a smaller one-step error than the one chosen. */
  lemma {:induction false} BestComboIsBest(values: seq<real>, alpha: real, beta: real)
    requires InGrid(alpha, beta)
    ensures InGrid(BestCombo(values).0, BestCombo(values).1)
    ensures !Cheaper(ComboCost(values, alpha, beta), ComboCost(values, BestCombo(values).0, BestCombo(values).1))
  {
    hide OneStepMse, FittedPath, InGrid;
    var combos := Combos();
    var costs := seq(9, i requires 0 <= i < 9 => OneStepMse(values, FittedPath(values, combos[i].0, combos[i].1)));
    var k := ComboAt(alpha, beta);
    assert costs[k] == ComboCost(values, alpha, beta);
    assert costs[ArgMin(costs)] == ComboCost(values, BestCombo(values).0, BestCombo(values).1);
  }

  function FitHolt(values: seq<real>): (m: FittedModel)
    ensures m.Damped? && WellFormed(m)
  {
    if |values| == 0 then Damped(0.0, 0.0, 0.3, 0.1, [])
    else
      var (alpha, beta) := BestCombo(values);
      var s := Terminal(values, alpha, beta);
      Damped(s.level, s.trend, alpha, beta, FittedPath(values, alpha, beta))
  }

  /** The fitted trend model has, for three values or more, the least sum of squared errors of
      the nine pairs; its level and trend are the state after the last value and its fitted
      values the one-step forecasts. */
  lemma FitHoltIsLeastSquares(values: seq<real>, alpha: real, beta: real)
    requires alpha in {0.2, 0.3, 0.5} && beta in {0.05, 0.1, 0.2} && |values| >= 3
    ensures var m := FitHolt(values);
      && m.alpha in {0.2, 0.3, 0.5} && m.beta in {0.05, 0.1, 0.2}
      && State(m.level, m.trend) == After(values, |values|, m.alpha, m.beta)
      && |m.fitted| == |values| && (forall t :: 1 <= t < |values| ==> m.fitted[t] == Forecast1(After(values, t, m.alpha, m.beta)))
      && Sum(Squares(values, m.fitted)) <= Sum(Squares(values, FittedPath(values, alpha, beta)))
  {
    var (a, b) := BestCombo(values);
    assert InGrid(alpha, beta) && InGrid(a, b);
    var m := FitHolt(values);
    assert m.fitted == FittedPath(values, a, b) && m.alpha == a && m.beta == b;
    assert forall t :: 1 <= t < |values| ==> m.fitted[t] == FittedAt(values, t, a, b);
    hide InGrid, OneStepMse, FittedPath, Squares, Sum, BestCombo, FitHolt, After;
    BestComboIsBest(values, alpha, beta);
    CheaperIsLessSquared(values, FittedPath(values, alpha, beta), FittedPath(values, a, b));
  }

  // ---- stability ----

  // A hexagon of (level, trend) states: |trend| <= M, the level within x*M of M/2,
  // and level + s*trend within w*M of M/2.
  datatype Hexagon = Hexagon(x: real, s: real, w: real)

  function HexagonFor(alpha: real): Hexagon {
    if alpha == 0.2 then Hexagon(2.9, 5.0, 6.2)
    else if alpha == 0.3 then Hexagon(2.05, 4.0, 5.0)
    else Hexagon(1.3, 1.25, 2.4)
  }

  ghost predicate Inside(st: State, m: real, h: Hexagon) {
    && -m <= st.trend <= m
    && -(h.x * m) <= st.level - 0.5 * m <= h.x * m
    && -(h.w * m) <= st.level - 0.5 * m + h.s * st.trend <= h.w * m
  }

  lemma {:induction false} StepStaysInside(st: State, v: real, m: real, alpha: real, beta: real)
    requires InGrid(alpha, beta) && 0.0 <= v <= m && Inside(st, m, HexagonFor(alpha))
    ensures Inside(Step(st, v, alpha, beta), m, HexagonFor(alpha))
  {
    if alpha == 0.2 {
      if beta == 0.05 {} else if beta == 0.1 {} else {}
    } else if alpha == 0.3 {
      if beta == 0.05 {} else if beta == 0.1 {} else {}
    } else {
      if beta == 0.05 {} else if beta == 0.1 {} else {}
    }
  }

  /** For every history with values in [0, m] and every grid pair, the trend never
      exceeds m in magnitude and the level stays within 2.9*m of m/2, at every step. */
  lemma {:induction false} HoltIsStable(values: seq<real>, t: nat, m: real, alpha: real, beta: real)
    requires InGrid(alpha, beta) && 1 <= t <= |values| && Within(values, 0.0, m)
    ensures Inside(After(values, t, alpha, beta), m, HexagonFor(alpha))
    ensures -m <= After(values, t, alpha, beta).trend <= m
    ensures -2.4 * m <= After(values, t, alpha, beta).level <= 3.4 * m
  {
    assert 0.0 <= values[0] <= m;
    if t > 1 {
      HoltIsStable(values, t - 1, m, alpha, beta);
      StepStaysInside(After(values, t - 1, alpha, beta), values[t - 1], m, alpha, beta);
    }
  }

  lemma {:induction false} PhiPowers(i: nat)
    ensures 0.0 < Pow(DAMPING_PHI, i) <= 1.0
    ensures i > 0 ==> Pow(DAMPING_PHI, i) <= 0.9
  {
    if i > 0 { PhiPowers(i - 1); }
  }

  // The damped path in terms of one multiplier between 0 and 9.
  lemma DampedFactor(level: real, trend: real, i: nat) returns (k: real)
    ensures 0.0 <= k < 9.0 && DampedAt(level, trend, i) == level + k * trend
  {
    PhiPowers(i);
    k := 9.0 * (1.0 - Pow(DAMPING_PHI, i));
  }

  // An upward path is capped by its value at any one multiplier or by its limit.
  lemma PathCap(level: real, trend: real, i: nat, s: real)
    requires 0.0 <= s <= 9.0
    ensures trend <= 0.0 ==> DampedAt(level, trend, i) <= level
    ensures trend > 0.0 ==>
      DampedAt(level, trend, i) <= level + s * trend || DampedAt(level, trend, i) <= level + 9.0 * trend
  {
    var k := DampedFactor(level, trend, i);
    if trend <= 0.0 {
      MulMono(trend, 0.0, k);
    } else if k <= s {
      MulMono(k, s, trend);
    } else {
      MulMono(k, 9.0, trend);
    }
  }

  lemma PathInHexagon(st: State, m: real, alpha: real, i: nat)
    requires m >= 0.0 && alpha in HOLT_ALPHAS && Inside(st, m, HexagonFor(alpha))
    ensures DampedAt(st.level, st.trend, i) <= 10.7 * m
  {
    PathCap(st.level, st.trend, i, 5.0);
    PathCap(st.level, st.trend, i, 4.0);
    PathCap(st.level, st.trend, i, 1.25);
  }

  /** A grid-searched Holt model never predicts above 10.7 times the largest sale, at any horizon. */
  lemma HoltForecastIsBounded(values: seq<real>, h: nat, m: real)
    requires m >= 0.0 && Within(values, 0.0, m)
    ensures Within(Predict(FitHolt(values), h), 0.0, 10.7 * m)
  {
    var f := FitHolt(values);
    forall i | 0 <= i < h ensures 0.0 <= Predict(f, h)[i] <= 10.7 * m {
      assert Predict(f, h)[i] == Max(0.0, DampedAt(f.level, f.trend, i + 1));
      if |values| > 0 {
        var (alpha, beta) := BestCombo(values);
        HoltIsStable(values, |values|, m, alpha, beta);
        PathInHexagon(Terminal(values, alpha, beta), m, alpha, i + 1);
      } else {
        var k := DampedFactor(0.0, 0.0, i + 1);
      }
    }
  }

  // ---- the recursion ----

  /** A step corrects its own forecast by the error it makes: the level by alpha, the damped
      trend by alpha times beta of it. */
  lemma StepCorrectsError(s: State, v: real, alpha: real, beta: real)
    ensures var f := s.level + 0.9 * s.trend;
      Step(s, v, alpha, beta) == State(f + alpha * (v - f), 0.9 * s.trend + alpha * beta * (v - f))
  {
    var f := s.level + 0.9 * s.trend;
    var e := v - f;
    var level := Step(s, v, alpha, beta).level;
    assert level == f + alpha * e;
    assert level - s.level == 0.9 * s.trend + alpha * e;
    assert beta * (level - s.level) == beta * (0.9 * s.trend) + beta * (alpha * e);
    assert (1.0 - beta) * DAMPING_PHI * s.trend == 0.9 * s.trend - beta * (0.9 * s.trend);
    assert beta * (alpha * e) == alpha * beta * e;
  }

  lemma {:induction false} AfterSeesPrefix(a: seq<real>, b: seq<real>, t: nat, alpha: real, beta: real)
    requires 2 <= t <= |a| && t <= |b| && a[..t] == b[..t]
    ensures After(a, t, alpha, beta) == After(b, t, alpha, beta)
  {
    hide Step;
    assert a[t - 1] == a[..t][t - 1] == b[..t][t - 1] == b[t - 1];
    assert a[..t - 1] == a[..t][..t - 1] == b[..t][..t - 1] == b[..t - 1];
    if t > 2 {
      AfterSeesPrefix(a, b, t - 1, alpha, beta);
    } else {
      assert a[0] == a[..t][0] && b[0] == b[..t][0];
      assert After(a, 1, alpha, beta) == After(b, 1, alpha, beta);
    }
  }

  /** From the third value on a fitted value is a genuine forecast, made from the values
      before it. The second one is not: the first trend already uses the value it predicts. */
  lemma FitsLookBackFromTheThird(a: seq<real>, b: seq<real>, t: nat, alpha: real, beta: real)
    requires t < |a| && t < |b|
    ensures t >= 2 && a[..t] == b[..t] ==> FittedPath(a, alpha, beta)[t] == FittedPath(b, alpha, beta)[t]
    ensures t == 1 ==> FittedPath(a, alpha, beta)[1] == a[0] + 0.9 * (a[1] - a[0])
    ensures t == 0 ==> FittedPath(a, alpha, beta)[0] == a[0]
  {
    if t >= 2 && a[..t] == b[..t] { AfterSeesPrefix(a, b, t, alpha, beta); }
  }

  // ---- self-consistency ----

  /** The state after feeding the model i of its own one-step forecasts. */
  function Coast(s: State, i: nat, alpha: real, beta: real): State {
    if i == 0 then s
    else var p := Coast(s, i - 1, alpha, beta); Step(p, Forecast1(p), alpha, beta)
  }

  lemma OwnForecastStep(s: State, alpha: real, beta: real)
    ensures Step(s, Forecast1(s), alpha, beta) == State(Forecast1(s), DAMPING_PHI * s.trend)
  {
    var p := Forecast1(s);
    assert alpha * p + (1.0 - alpha) * p == p;
    var d := DAMPING_PHI * s.trend;
    assert beta * d + (1.0 - beta) * d == d;
    assert (1.0 - beta) * DAMPING_PHI * s.trend == (1.0 - beta) * d;
  }

  // The closed form with its one product, the geometrically damped trend, named.
  lemma DampedLinear(level: real, trend: real, i: nat)
    ensures DampedAt(level, trend, i) == level + 9.0 * trend - 9.0 * (Pow(DAMPING_PHI, i) * trend)
    ensures i > 0 ==> Pow(DAMPING_PHI, i) * trend == 0.9 * (Pow(DAMPING_PHI, i - 1) * trend)
  {
    var w := Pow(DAMPING_PHI, i);
    assert trend * DAMPING_PHI * (1.0 - w) / (1.0 - DAMPING_PHI) == 9.0 * (trend * (1.0 - w));
    assert trend * (1.0 - w) == trend - w * trend;
    if i > 0 {
      assert w == 0.9 * Pow(DAMPING_PHI, i - 1);
    }
  }

  /** The closed form is the recursion run on its own forecasts. */
  lemma {:induction false} ClosedFormIsTheRecursion(s: State, i: nat, alpha: real, beta: real)
    ensures Coast(s, i, alpha, beta) == State(DampedAt(s.level, s.trend, i), Pow(DAMPING_PHI, i) * s.trend)
  {
    hide DampedAt, Step;
    DampedLinear(s.level, s.trend, i);
    if i > 0 {
      ClosedFormIsTheRecursion(s, i - 1, alpha, beta);
      var p := Coast(s, i - 1, alpha, beta);
      OwnForecastStep(p, alpha, beta);
      DampedLinear(s.level, s.trend, i - 1);
      DampedLinear(s.level, s.trend, i);
    }
  }

  lemma {:induction false} AfterIgnoresSuffix(values: seq<real>, x: real, t: nat, alpha: real, beta: real)
    requires 1 <= t <= |values| && |values| >= 2
    ensures After(values + [x], t, alpha, beta) == After(values, t, alpha, beta)
  {
    if t > 1 { AfterIgnoresSuffix(values, x, t - 1, alpha, beta); }
  }

  lemma AppendOwnForecast(values: seq<real>, alpha: real, beta: real)
    requires |values| > 0
    ensures var s := Terminal(values, alpha, beta);
            Terminal(values + [Forecast1(s)], alpha, beta) == Step(s, Forecast1(s), alpha, beta)
  {
    var s := Terminal(values, alpha, beta);
    var longer := values + [Forecast1(s)];
    if |values| == 1 {
      assert After(longer, 1, alpha, beta) == State(values[0], 0.0);
      assert After(longer, 2, alpha, beta) == Step(After(longer, 1, alpha, beta), longer[1], alpha, beta);
    } else {
      AfterIgnoresSuffix(values, Forecast1(s), |values|, alpha, beta);
      assert After(longer, |longer|, alpha, beta) == Step(After(longer, |values|, alpha, beta), longer[|values|], alpha, beta);
    }
  }

  /** The history extended by k of its own forecasts. */
  function Extend(values: seq<real>, k: nat, alpha: real, beta: real): seq<real> {
    if k == 0 then values
    else var v := Extend(values, k - 1, alpha, beta); v + [Forecast1(Terminal(v, alpha, beta))]
  }

  lemma {:induction false} CoastAdds(s: State, j: nat, i: nat, alpha: real, beta: real)
    ensures Coast(Coast(s, j, alpha, beta), i, alpha, beta) == Coast(s, j + i, alpha, beta)
  {
    if i > 0 { CoastAdds(s, j, i - 1, alpha, beta); }
  }

  lemma {:induction false} ExtendCoasts(values: seq<real>, k: nat, alpha: real, beta: real)
    requires |values| > 0
    ensures |Extend(values, k, alpha, beta)| == |values| + k
    ensures Terminal(Extend(values, k, alpha, beta), alpha, beta) == Coast(Terminal(values, alpha, beta), k, alpha, beta)
  {
    if k > 0 {
      ExtendCoasts(values, k - 1, alpha, beta);
      AppendOwnForecast(Extend(values, k - 1, alpha, beta), alpha, beta);
    }
  }

  /** With fixed parameters, appending the first k forecasts to the history
      shifts every later forecast by exactly k steps. */
  lemma AppendingForecastsShifts(values: seq<real>, k: nat, i: nat, alpha: real, beta: real)
    requires |values| > 0
    ensures var s := Terminal(values, alpha, beta);
            var e := Terminal(Extend(values, k, alpha, beta), alpha, beta);
            DampedAt(e.level, e.trend, i) == DampedAt(s.level, s.trend, k + i)
  {
    var s := Terminal(values, alpha, beta);
    ExtendCoasts(values, k, alpha, beta);
    var e := Terminal(Extend(values, k, alpha, beta), alpha, beta);
    CoastAdds(s, k, i, alpha, beta);
    ClosedFormIsTheRecursion(s, k + i, alpha, beta);
    ClosedFormIsTheRecursion(e, i, alpha, beta);
  }

  /** The unclipped path moves only in the trend's direction and stays within 9*|trend| of the level. */
  lemma PathFollowsTrend(s: State, i: nat)
    ensures s.trend >= 0.0 ==> DampedAt(s.level, s.trend, i) <= DampedAt(s.level, s.trend, i + 1)
    ensures s.trend <= 0.0 ==> DampedAt(s.level, s.trend, i) >= DampedAt(s.level, s.trend, i + 1)
    ensures Abs(DampedAt(s.level, s.trend, i) - s.level) <= 9.0 * Abs(s.trend)
  {
    PhiPowers(i);
    DampedLinear(s.level, s.trend, i);
    DampedLinear(s.level, s.trend, i + 1);
    ScaledBetween(Pow(DAMPING_PHI, i), s.trend);
  }

  lemma ScaledBetween(w: real, t: real)
    requires 0.0 <= w <= 1.0
    ensures t >= 0.0 ==> 0.0 <= w * t <= t
    ensures t <= 0.0 ==> t <= w * t <= 0.0
  {
    MulMono(0.0, w, Abs(t));
    MulMono(w, 1.0, Abs(t));
  }

  lemma {:induction false} ConstantHistory(values: seq<real>, c: real, t: nat, alpha: real, beta: real)
    requires AllEqual(values, c) && 1 <= t <= |values|
    ensures After(values, t, alpha, beta) == State(c, 0.0)
  {
    if t > 1 {
      ConstantHistory(values, c, t - 1, alpha, beta);
      assert alpha * c + (1.0 - alpha) * c == c;
    }
  }

  // The model fitted with given parameters.
  function FitWith(values: seq<real>, alpha: real, beta: real): (m: FittedModel)
    ensures m.Damped?
  {
    var s := Terminal(values, alpha, beta);
    Damped(s.level, s.trend, alpha, beta, FittedPath(values, alpha, beta))
  }

  /** The same for the clipped forecasts a model predicts: after appending k of the unclipped
      ones, its forecasts are the earlier ones from the (k+1)-th on. */
  lemma PredictionsShift(values: seq<real>, k: nat, h: nat, alpha: real, beta: real)
    requires |values| > 0
    ensures Predict(FitWith(Extend(values, k, alpha, beta), alpha, beta), h) == Predict(FitWith(values, alpha, beta), k + h)[k..]
  {
    var a, b := FitWith(Extend(values, k, alpha, beta), alpha, beta), FitWith(values, alpha, beta);
    forall i | 0 <= i < h ensures Predict(a, h)[i] == Predict(b, k + h)[k + i] {
      PredictedAt(a, h, i);
      PredictedAt(b, k + h, k + i);
      AppendingForecastsShifts(values, k, i + 1, alpha, beta);
    }
    hide Predict, FitWith, Extend;
    assert Predict(b, k + h)[k..] == Predict(a, h);
  }

  lemma PredictedAt(m: FittedModel, h: nat, i: nat)
    requires m.Damped? && i < h
    ensures Predict(m, h)[i] == Max(0.0, DampedAt(m.level, m.trend, i + 1))
  {
    hide DampedAt;
  }
}
