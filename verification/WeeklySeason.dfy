/** Additive day-of-week decomposition around a damped Holt base. */
module WeeklySeason {
  import opened Options
  import opened RealSeq
  import opened Models
  import opened HoltTrend

  /** The values observed on phase k of the 7-day cycle, in order. */
  function Phase(values: seq<real>, k: nat): seq<real> {
    if |values| == 0 then []
    else
      var n := |values| - 1;
      if n % PERIOD == k then Phase(values[..n], k) + [values[n]] else Phase(values[..n], k)
  }

  function PhaseMean(values: seq<real>, k: nat): real {
    var p := Phase(values, k);
    if |p| == 0 then 0.0 else Mean(p)
  }

  function PhaseMeans(values: seq<real>): (r: seq<real>)
    ensures |r| == PERIOD
  {
    seq(PERIOD, k requires 0 <= k < PERIOD => PhaseMean(values, k))
  }

  function Center(values: seq<real>): real {
    Mean(PhaseMeans(values))
  }

  function Indices(values: seq<real>): (r: seq<real>)
    ensures |r| == PERIOD
  {
    seq(PERIOD, k requires 0 <= k < PERIOD => PhaseMean(values, k) - Center(values))
  }

  method SeasonalIndices(values: seq<real>) returns (indices: seq<real>)
    ensures indices == Indices(values)
  {
    var phases: seq<seq<real>> := seq(PERIOD, _ => []);
    for i := 0 to |values|
      invariant |phases| == PERIOD
      invariant forall k :: 0 <= k < PERIOD ==> phases[k] == Phase(values[..i], k)
    {
      assert values[..i + 1][..i] == values[..i];
      phases := phases[i % PERIOD := phases[i % PERIOD] + [values[i]]];
    }
    assert values[..|values|] == values;
    var means := seq(PERIOD, k requires 0 <= k < PERIOD => if |phases[k]| == 0 then 0.0 else Mean(phases[k]));
    assert means == PhaseMeans(values);
    var center := Mean(means);
    indices := seq(PERIOD, k requires 0 <= k < PERIOD => means[k] - center);
  }

  function Deseasoned(values: seq<real>): (r: seq<real>)
    ensures |r| == |values|
  {
    var indices := Indices(values);
    seq(|values|, i requires 0 <= i < |values| => values[i] - indices[i % PERIOD])
  }

  function FitSeasonal(values: seq<real>): (m: Option<FittedModel>)
    ensures m.Some? <==> |values| >= 2 * PERIOD
    ensures m.Some? ==> m.value.Weekly? && WellFormed(m.value)
  {
    if |values| < PERIOD * 2 then None
    else
      var indices := Indices(values);
      var deseason := Deseasoned(values);
      var base := FitHolt(deseason);
      var path := FittedPath(deseason, base.alpha, base.beta);
      Some(Weekly(base, indices, |values|,
                  seq(|values|, i requires 0 <= i < |values| => path[i] + indices[i % PERIOD])))
  }

  // The forecast i steps ahead before either clip at zero.
  function RawForecast(m: FittedModel, i: nat): real
    requires m.Weekly? && WellFormed(m)
  {
    DampedAt(m.base.level, m.base.trend, i + 1) + m.indices[(m.offset + i) % PERIOD]
  }

  /** The seven seasonal indices always sum to zero. */
  lemma IndicesSumToZero(values: seq<real>)
    ensures Sum(Indices(values)) == 0.0
  {
    SumShift(PhaseMeans(values), Indices(values), -Center(values));
  }

  /** A phase holds every seventh value from its first day on. */
  lemma {:induction false} PhaseIs(values: seq<real>, k: nat, j: nat)
    requires k < 7
    ensures |Phase(values, k)| == (|values| + 6 - k) / 7
    ensures j < |Phase(values, k)| ==> 7 * j + k < |values| && Phase(values, k)[j] == values[7 * j + k]
  {
    if |values| > 0 { PhaseIs(values[..|values| - 1], k, j); }
  }

  /** A phase mean is the mean of its values, and an index that mean less the mean of the seven. */
  lemma IndexIs(values: seq<real>, k: nat)
    requires |values| >= 7 && k < 7
    ensures |Phase(values, k)| > 0 && PhaseMeans(values)[k] == Sum(Phase(values, k)) / |Phase(values, k)| as real
    ensures Indices(values)[k] == PhaseMeans(values)[k] - Mean(PhaseMeans(values))
  {
    PhaseIs(values, k, 0);
    hide Sum, Phase;
  }

  /** The seasonal model fits the trend model to the values less their indices. */
  lemma SeasonalModelIs(values: seq<real>, low: seq<real>)
    requires |values| >= 14 && |low| == |values|
    requires forall i :: 0 <= i < |low| ==> low[i] == values[i] - Indices(values)[i % 7]
    ensures var m := FitSeasonal(values).value;
      m.base == FitHolt(low) && m.offset == |values| && m.indices == Indices(values)
  {
    hide FitHolt, FittedPath, Indices;
    assert Deseasoned(values) == low;
  }

  // ---- a weekly pattern passes straight through ----

  ghost predicate IsPlusPattern(longer: seq<real>, values: seq<real>, pattern: seq<real>) {
    && |pattern| == PERIOD && |longer| == |values|
    && forall i :: 0 <= i < |values| ==> longer[i] == values[i] + pattern[i % PERIOD]
  }

  lemma {:induction false} PhaseShifts(longer: seq<real>, values: seq<real>, pattern: seq<real>, k: nat)
    requires IsPlusPattern(longer, values, pattern) && k < PERIOD
    ensures |Phase(longer, k)| == |Phase(values, k)|
    ensures forall j :: 0 <= j < |Phase(values, k)| ==> Phase(longer, k)[j] == Phase(values, k)[j] + pattern[k]
  {
    if |values| > 0 {
      var n := |values| - 1;
      PhaseShifts(longer[..n], values[..n], pattern, k);
    }
  }

  lemma {:induction false} PhaseNonempty(values: seq<real>, k: nat)
    requires k < PERIOD && k < |values|
    ensures |Phase(values, k)| > 0
  {
    var n := |values| - 1;
    if n != k { PhaseNonempty(values[..n], k); }
  }

  lemma MeanShifts(a: seq<real>, b: seq<real>, c: real)
    requires |a| == |b| > 0 && forall i :: 0 <= i < |a| ==> b[i] == a[i] + c
    ensures Mean(b) == Mean(a) + c
  {
    SumShift(a, b, c);
    var n := |a| as real;
    assert (Sum(a) + c * n) / n == Sum(a) / n + c;
  }

  lemma {:induction false} IndicesAbsorbPattern(longer: seq<real>, values: seq<real>, pattern: seq<real>)
    requires IsPlusPattern(longer, values, pattern) && |values| >= PERIOD
    ensures Center(longer) == Center(values) + Mean(pattern)
    ensures forall k :: 0 <= k < PERIOD ==> Indices(longer)[k] == Indices(values)[k] + pattern[k] - Mean(pattern)
  {
    forall k | 0 <= k < PERIOD ensures PhaseMeans(longer)[k] == PhaseMeans(values)[k] + pattern[k] {
      PhaseShifts(longer, values, pattern, k);
      PhaseNonempty(values, k);
      MeanShifts(Phase(values, k), Phase(longer, k), pattern[k]);
    }
    SumAdd(PhaseMeans(values), pattern, PhaseMeans(longer));
  }

  lemma {:induction false} HoltShifts(a: seq<real>, b: seq<real>, c: real, t: nat, alpha: real, beta: real)
    requires |a| == |b| && 1 <= t <= |a| && forall i :: 0 <= i < |a| ==> b[i] == a[i] + c
    ensures After(b, t, alpha, beta) == State(After(a, t, alpha, beta).level + c, After(a, t, alpha, beta).trend)
  {
    if t > 1 {
      HoltShifts(a, b, c, t - 1, alpha, beta);
      StepShifts(After(a, t - 1, alpha, beta), a[t - 1], c, alpha, beta);
    }
  }

  lemma StepShifts(s: State, v: real, c: real, alpha: real, beta: real)
    ensures Step(State(s.level + c, s.trend), v + c, alpha, beta)
         == State(Step(s, v, alpha, beta).level + c, Step(s, v, alpha, beta).trend)
  {
    var f := Forecast1(s);
    assert Forecast1(State(s.level + c, s.trend)) == f + c;
    assert alpha * (v + c) + (1.0 - alpha) * (f + c) == alpha * v + (1.0 - alpha) * f + c;
  }

  // Shifting a history shifts its fitted path, so every grid cost and the chosen pair stay put.
  lemma {:induction false} ChoiceUnmovedByShift(a: seq<real>, b: seq<real>, c: real)
    requires |a| == |b| && forall i :: 0 <= i < |a| ==> b[i] == a[i] + c
    ensures BestCombo(b) == BestCombo(a)
  {
    var combos := Combos();
    forall i | 0 <= i < 9
      ensures OneStepMse(b, FittedPath(b, combos[i].0, combos[i].1)) == OneStepMse(a, FittedPath(a, combos[i].0, combos[i].1))
    {
      MseUnmovedByShift(a, b, c, combos[i].0, combos[i].1);
    }
    assert seq(9, i requires 0 <= i < 9 => OneStepMse(b, FittedPath(b, combos[i].0, combos[i].1)))
        == seq(9, i requires 0 <= i < 9 => OneStepMse(a, FittedPath(a, combos[i].0, combos[i].1)));
  }

  lemma MseUnmovedByShift(a: seq<real>, b: seq<real>, c: real, alpha: real, beta: real)
    requires |a| == |b| && forall i :: 0 <= i < |a| ==> b[i] == a[i] + c
    ensures OneStepMse(b, FittedPath(b, alpha, beta)) == OneStepMse(a, FittedPath(a, alpha, beta))
  {
    var fa, fb := FittedPath(a, alpha, beta), FittedPath(b, alpha, beta);
    forall t | 0 <= t < |a| ensures b[t] - fb[t] == a[t] - fa[t] {
      if t > 0 { FittedShifts(a, b, c, t, alpha, beta); }
    }
    SameErrorsSameMse(a, fa, b, fb);
  }

  lemma FittedShifts(a: seq<real>, b: seq<real>, c: real, t: nat, alpha: real, beta: real)
    requires |a| == |b| && 1 <= t < |a| && forall i :: 0 <= i < |a| ==> b[i] == a[i] + c
    ensures FittedAt(b, t, alpha, beta) == FittedAt(a, t, alpha, beta) + c
  {
    HoltShifts(a, b, c, t, alpha, beta);
  }

  lemma SameErrorsSameMse(a: seq<real>, fa: seq<real>, b: seq<real>, fb: seq<real>)
    requires |a| == |fa| == |b| == |fb|
    requires forall t :: 0 <= t < |a| ==> b[t] - fb[t] == a[t] - fa[t]
    ensures OneStepMse(b, fb) == OneStepMse(a, fa)
  {
    var ea, eb := SquaredErrors(a, fa, |a|), SquaredErrors(b, fb, |a|);
    forall i | 0 <= i < |ea| ensures eb[i] == ea[i] {
      assert b[i + 1] - fb[i + 1] == a[i + 1] - fa[i + 1];
    }
    assert ea == eb;
  }

  lemma {:induction false} FitHoltShifts(a: seq<real>, b: seq<real>, c: real)
    requires |a| == |b| > 0 && forall i :: 0 <= i < |a| ==> b[i] == a[i] + c
    ensures FitHolt(b).level == FitHolt(a).level + c && FitHolt(b).trend == FitHolt(a).trend
  {
    ChoiceUnmovedByShift(a, b, c);
    var (alpha, beta) := BestCombo(a);
    HoltShifts(a, b, c, |a|, alpha, beta);
  }

  lemma RawForecastShifts(m: FittedModel, n: FittedModel, i: nat, c: real, p: real)
    requires m.Weekly? && n.Weekly? && WellFormed(m) && WellFormed(n) && m.offset == n.offset
    requires n.base.level == m.base.level + c && n.base.trend == m.base.trend
    requires n.indices[(m.offset + i) % PERIOD] == m.indices[(m.offset + i) % PERIOD] + p - c
    ensures RawForecast(n, i) == RawForecast(m, i) + p
  {
    DampedLinear(m.base.level, m.base.trend, i + 1);
    DampedLinear(n.base.level, n.base.trend, i + 1);
  }

  lemma IndexAbsorbs(longer: seq<real>, values: seq<real>, pattern: seq<real>, k: nat)
    requires IsPlusPattern(longer, values, pattern) && |values| >= PERIOD && k < PERIOD
    ensures Indices(longer)[k] == Indices(values)[k] + pattern[k] - Mean(pattern)
  {
    IndicesAbsorbPattern(longer, values, pattern);
  }

  lemma DeseasonedShifts(longer: seq<real>, values: seq<real>, pattern: seq<real>)
    requires IsPlusPattern(longer, values, pattern) && |values| >= PERIOD
    ensures forall j :: 0 <= j < |values| ==> Deseasoned(longer)[j] == Deseasoned(values)[j] + Mean(pattern)
  {
    IndicesAbsorbPattern(longer, values, pattern);
    forall j | 0 <= j < |values| ensures Deseasoned(longer)[j] == Deseasoned(values)[j] + Mean(pattern) {
      assert Indices(longer)[j % PERIOD] == Indices(values)[j % PERIOD] + pattern[j % PERIOD] - Mean(pattern);
    }
  }

  lemma {:induction false} BaseShifts(longer: seq<real>, values: seq<real>, pattern: seq<real>)
    requires IsPlusPattern(longer, values, pattern) && |values| >= PERIOD
    ensures FitHolt(Deseasoned(longer)).level == FitHolt(Deseasoned(values)).level + Mean(pattern)
    ensures FitHolt(Deseasoned(longer)).trend == FitHolt(Deseasoned(values)).trend
  {
    DeseasonedShifts(longer, values, pattern);
    FitHoltShifts(Deseasoned(values), Deseasoned(longer), Mean(pattern));
  }

  // The two fits and how far they differ.
  lemma {:induction false} FitsDiffer(longer: seq<real>, values: seq<real>, pattern: seq<real>, k: nat)
    returns (m: FittedModel, n: FittedModel, c: real)
    requires IsPlusPattern(longer, values, pattern) && |values| >= 2 * PERIOD && k < PERIOD
    ensures FitSeasonal(values) == Some(m) && FitSeasonal(longer) == Some(n)
    ensures m.Weekly? && n.Weekly? && WellFormed(m) && WellFormed(n) && m.offset == n.offset == |values|
    ensures n.base.level == m.base.level + c && n.base.trend == m.base.trend
    ensures n.indices[k] == m.indices[k] + pattern[k] - c
  {
    BaseShifts(longer, values, pattern);
    IndexAbsorbs(longer, values, pattern, k);
    m, n, c := FitSeasonal(values).value, FitSeasonal(longer).value, Mean(pattern);
  }

  /** Adding any 7-day pattern to a history adds exactly that pattern, in phase,
      to every unclipped forecast: the grid search and the trend are unaffected. */
  lemma {:induction false} WeeklyPatternPassesThrough(longer: seq<real>, values: seq<real>, pattern: seq<real>, i: nat)
    requires IsPlusPattern(longer, values, pattern) && |values| >= 2 * PERIOD
    ensures RawForecast(FitSeasonal(longer).value, i)
         == RawForecast(FitSeasonal(values).value, i) + pattern[(|values| + i) % PERIOD]
  {
    hide FitSeasonal, DampedAt;
    var k := (|values| + i) % PERIOD;
    var m, n, c := FitsDiffer(longer, values, pattern, k);
    RawForecastShifts(m, n, i, c, pattern[k]);
  }

  ghost predicate IsWeekly(values: seq<real>) {
    |values| >= PERIOD && forall i :: 0 <= i < |values| ==> values[i] == values[i % PERIOD] >= 0.0
  }

  lemma ZeroHistoryIndices(zeros: seq<real>)
    requires AllEqual(zeros, 0.0)
    ensures Center(zeros) == 0.0 && AllEqual(Indices(zeros), 0.0)
  {
    forall k | 0 <= k < PERIOD ensures PhaseMean(zeros, k) == 0.0 {
      PhaseOfConstant(zeros, 0.0, k);
      var p := Phase(zeros, k);
      if |p| > 0 { MeanBounds(p, 0.0, 0.0); }
    }
    MeanBounds(PhaseMeans(zeros), 0.0, 0.0);
  }

  lemma FlattenedBy(values: seq<real>, c: real)
    requires IsWeekly(values)
    requires forall k :: 0 <= k < PERIOD ==> Indices(values)[k] == values[k] - c
    ensures AllEqual(Deseasoned(values), c)
  {
    forall j | 0 <= j < |values| ensures Deseasoned(values)[j] == c {
      assert Indices(values)[j % PERIOD] == values[j % PERIOD] - c;
    }
  }

  lemma NonnegMean(s: seq<real>)
    requires |s| > 0 && forall i :: 0 <= i < |s| ==> s[i] >= 0.0
    ensures Mean(s) >= 0.0
  {
    SumNonneg(s);
    DivBounds(Sum(s), |s| as real, 0.0, Sum(s));
  }

  lemma {:induction false} WeeklyHistoryFlattens(values: seq<real>)
    requires IsWeekly(values)
    ensures Center(values) >= 0.0 && AllEqual(Deseasoned(values), Center(values))
    ensures forall k :: 0 <= k < PERIOD ==> Indices(values)[k] == values[k] - Center(values)
  {
    hide Mean, Sum, Phase, PhaseMean;
    var zeros := Repeat(0.0, |values|);
    var pattern := values[..PERIOD];
    assert IsPlusPattern(values, zeros, pattern);
    IndicesAbsorbPattern(values, zeros, pattern);
    ZeroHistoryIndices(zeros);
    NonnegMean(pattern);
    FlattenedBy(values, Center(values));
  }

  lemma {:induction false} PhaseOfConstant(values: seq<real>, c: real, k: nat)
    requires AllEqual(values, c)
    ensures AllEqual(Phase(values, k), c)
  {
    if |values| > 0 { PhaseOfConstant(values[..|values| - 1], c, k); }
  }

  /** A non-negative 7-periodic history of any length from 14 on is continued
      exactly, at every horizon, whichever parameters the grid search picks. */
  lemma {:induction false} ExactWeeklyContinuation(values: seq<real>, h: nat)
    requires IsWeekly(values) && |values| >= 2 * PERIOD
    ensures FitSeasonal(values).Some?
    ensures forall i :: 0 <= i < h ==> Predict(FitSeasonal(values).value, h)[i] == values[(|values| + i) % PERIOD]
  {
    forall i | 0 <= i < h ensures Predict(FitSeasonal(values).value, h)[i] == values[(|values| + i) % PERIOD] {
      WeeklyContinuationAt(values, h, i);
    }
  }

  lemma {:induction false} FlatBase(values: seq<real>)
    requires IsWeekly(values)
    ensures FitHolt(Deseasoned(values)).level == Center(values)
    ensures FitHolt(Deseasoned(values)).trend == 0.0
  {
    WeeklyHistoryFlattens(values);
    var flat := Deseasoned(values);
    var (alpha, beta) := BestCombo(flat);
    ConstantHistory(flat, Center(values), |flat|, alpha, beta);
  }

  lemma {:induction false} WeeklyFit(values: seq<real>) returns (m: FittedModel)
    requires IsWeekly(values) && |values| >= 2 * PERIOD
    ensures FitSeasonal(values) == Some(m) && m.Weekly? && WellFormed(m)
    ensures m.offset == |values| && m.base.trend == 0.0 && m.base.level >= 0.0
    ensures forall k :: 0 <= k < PERIOD ==> m.indices[k] == values[k] - m.base.level
  {
    FlatBase(values);
    WeeklyHistoryFlattens(values);
    m := FitSeasonal(values).value;
  }

  lemma {:induction false} WeeklyContinuationAt(values: seq<real>, h: nat, i: nat)
    requires IsWeekly(values) && |values| >= 2 * PERIOD && i < h
    ensures Predict(FitSeasonal(values).value, h)[i] == values[(|values| + i) % PERIOD]
  {
    hide FitSeasonal, DampedAt;
    var m := WeeklyFit(values);
    FlatPrediction(m.base, h, i);
    var k := (|values| + i) % PERIOD;
    assert m.indices[k] == values[k] - m.base.level;
    assert values[k] == values[k % PERIOD] >= 0.0;
    assert Predict(m, h)[i] == Max(0.0, Predict(m.base, h)[i] + m.indices[(m.offset + i) % PERIOD]);
  }

  lemma FlatPrediction(m: FittedModel, h: nat, i: nat)
    requires m.Damped? && m.trend == 0.0 && m.level >= 0.0 && i < h
    ensures Predict(m, h)[i] == m.level
  {
    var k := DampedFactor(m.level, m.trend, i + 1);
    assert k * m.trend == 0.0;
    assert Predict(m, h)[i] == Max(0.0, DampedAt(m.level, m.trend, i + 1));
  }

  // ---- bounded ----

  lemma {:induction false} PhaseWithin(values: seq<real>, k: nat, hi: real)
    requires Within(values, 0.0, hi)
    ensures Within(Phase(values, k), 0.0, hi)
  {
    if |values| > 0 { PhaseWithin(values[..|values| - 1], k, hi); }
  }

  lemma IndicesWithin(values: seq<real>, hi: real)
    requires Within(values, 0.0, hi) && hi >= 0.0
    ensures Within(Indices(values), -hi, hi)
  {
    hide Mean;
    forall k | 0 <= k < PERIOD ensures 0.0 <= PhaseMeans(values)[k] <= hi {
      PhaseWithin(values, k, hi);
      if |Phase(values, k)| > 0 { MeanBounds(Phase(values, k), 0.0, hi); }
    }
    MeanBounds(PhaseMeans(values), 0.0, hi);
    forall k | 0 <= k < PERIOD ensures -hi <= Indices(values)[k] <= hi {
      assert Indices(values)[k] == PhaseMeans(values)[k] - Center(values);
    }
  }

  lemma {:induction false} DeseasonedWithin(values: seq<real>, hi: real)
    requires Within(values, 0.0, hi) && hi >= 0.0
    ensures Within(Deseasoned(values), -hi, 2.0 * hi)
  {
    IndicesWithin(values, hi);
    hide Indices;
    forall j | 0 <= j < |values| ensures -hi <= Deseasoned(values)[j] <= 2.0 * hi {
      assert -hi <= Indices(values)[j % PERIOD] <= hi;
    }
  }

  // Raised by hi, a history in [-hi, 2hi] is one the Holt bound applies to.
  lemma RaisedForecast(low: seq<real>, i: nat, hi: real)
    requires |low| > 0 && Within(low, -hi, 2.0 * hi) && hi >= 0.0
    ensures var base := FitHolt(low); DampedAt(base.level, base.trend, i + 1) <= 31.1 * hi
  {
    var raised := seq(|low|, j requires 0 <= j < |low| => low[j] + hi);
    FitHoltShifts(low, raised, hi);
    HoltForecastIsBounded(raised, i + 1, 3.0 * hi);
    hide FitHolt;
    ClippedAt(FitHolt(raised), i);
    DampedLinear(FitHolt(low).level, FitHolt(low).trend, i + 1);
    DampedLinear(FitHolt(raised).level, FitHolt(raised).trend, i + 1);
    hide DampedAt;
  }

  lemma ClippedAt(m: FittedModel, i: nat)
    requires m.Damped?
    ensures DampedAt(m.level, m.trend, i + 1) <= Predict(m, i + 1)[i]
  {
    assert Predict(m, i + 1)[i] == Max(0.0, DampedAt(m.level, m.trend, i + 1));
  }

  /** A seasonal forecast never exceeds 32.1 times the largest sale, at any horizon. */
  lemma {:induction false} WeeklyForecastIsBounded(values: seq<real>, h: nat, hi: real)
    requires |values| >= 2 * PERIOD && Within(values, 0.0, hi) && hi >= 0.0
    ensures Within(Predict(FitSeasonal(values).value, h), 0.0, 32.1 * hi)
  {
    var m := FitSeasonal(values).value;
    IndicesWithin(values, hi);
    hide FitSeasonal, FitHolt, Indices;
    forall i | 0 <= i < h ensures 0.0 <= Predict(m, h)[i] <= 32.1 * hi {
      DeseasonedWithin(values, hi);
      RaisedForecast(Deseasoned(values), i, hi);
      WeeklyStep(m, h, i);
    }
  }

  lemma WeeklyStep(m: FittedModel, h: nat, i: nat)
    requires m.Weekly? && WellFormed(m) && i < h
    ensures Predict(m, h)[i]
         == Max(0.0, Max(0.0, DampedAt(m.base.level, m.base.trend, i + 1)) + m.indices[(m.offset + i) % PERIOD])
  {
  }
}
