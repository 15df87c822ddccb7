/** What a hold-out replay holds, figure by figure, and a merchant whose sales follow a
    weekly pattern: the replay proves the ensemble exact, and every gate passes. */
module ReplayAnswers {
  import opened Options
  import opened RealSeq
  import opened HoldoutPooling
  import M = Models
  import S = Smoothing
  import B = RobustSpread
  import C = Calendar
  import E = Ensemble
  import W = WeeklySeason
  import L = Selection

  // ---- the fields of a replay ----

  // The first forecasts of the ensemble fitted on the training rows, and its sigma.
  ghost predicate HoldsEnsemble(r: Replay, train: seq<C.Row>, holdout: nat, correction: bool, root: nat -> real) {
    var b := E.Ensemble(train, holdout, None, correction, root);
    && |r.ensemble| == holdout <= |b.predictions| && r.sigma == b.sigma
    && forall i :: 0 <= i < holdout ==> r.ensemble[i] == b.predictions[i]
  }

  // The legacy forecast of the training rows, the units of the held-out rows and the mean of all.
  ghost predicate HoldsSales(r: Replay, train: seq<C.Row>, test: seq<C.Row>) {
    && |r.v1| == |r.actual| == |test| && |train| > 0
    && (forall i :: 0 <= i < |test| ==> r.v1[i] == S.LegacyDaily(C.Units(train)))
    && (forall i :: 0 <= i < |test| ==> r.actual[i] == test[i].units)
    && r.avgDaily == Mean(C.Units(train + test))
  }

  // A replay of the last `holdout` rows by day, with the rows before them for training.
  ghost predicate IsReplay(r: Replay, rows: seq<C.Row>, holdout: nat, correction: bool, root: nat -> real)
    requires 1 <= holdout < |rows|
  {
    var asc, cut := C.SortRows(rows), |rows| - holdout;
    HoldsEnsemble(r, asc[..cut], holdout, correction, root) && HoldsSales(r, asc[..cut], asc[cut..])
  }

  // A replay needs a hold-out of at most a year, two weeks before it, and demand in it.
  ghost predicate CanReplay(rows: seq<C.Row>, holdout: int) {
    && 1 <= holdout <= 365 && |rows| >= holdout + 14
    && exists i :: |rows| - holdout <= i < |rows| && C.SortRows(rows)[i].units > 0.0
  }

  lemma UnitsSplit(rows: seq<C.Row>, cut: nat)
    requires cut <= |rows|
    ensures C.Units(rows)[..cut] == C.Units(rows[..cut]) && C.Units(rows)[cut..] == C.Units(rows[cut..])
  {
  }

  lemma BundleLength(rows: seq<C.Row>, requested: int, correction: bool, root: nat -> real)
    ensures |E.Ensemble(rows, requested, None, correction, root).predictions| == E.ClampHorizon(requested)
  {
    var first, second, sigma := L.BundleAnswers(rows, requested, None, correction, root);
  }

  // Demand in the hold-out, read from the units or from the rows.
  lemma DemandSeen(asc: seq<C.Row>, cut: nat, actual: seq<real>)
    requires cut <= |asc| && actual == C.Units(asc)[cut..]
    ensures (forall i :: 0 <= i < |actual| ==> actual[i] <= 0.0) <==> !(exists i :: cut <= i < |asc| && asc[i].units > 0.0)
  {
    assert forall i :: 0 <= i < |actual| ==> actual[i] == asc[cut + i].units;
    if i :| cut <= i < |asc| && asc[i].units > 0.0 { assert actual[i - cut] > 0.0; }
  }

  lemma CanReplayIs(rows: seq<C.Row>, holdout: int, correction: bool, root: nat -> real)
    ensures ReplayOf(rows, holdout, correction, root).Evaluable? <==> CanReplay(rows, holdout)
  {
    hide E.Ensemble, S.LegacyDaily, Mean, C.SortRows, C.Units, E.ClampHorizon;
    if holdout >= 1 && |rows| >= holdout + 14 {
      var asc, cut := C.SortRows(rows), |rows| - holdout;
      DemandSeen(asc, cut, C.Units(asc)[cut..]);
      BundleLength(asc[..cut], holdout, correction, root);
    }
  }

  lemma ReplayHolds(rows: seq<C.Row>, holdout: int, correction: bool, root: nat -> real)
    requires 1 <= holdout < |rows| && ReplayOf(rows, holdout, correction, root).Evaluable?
    ensures IsReplay(ReplayOf(rows, holdout, correction, root).replay, rows, holdout, correction, root)
  {
    hide E.Ensemble, S.LegacyDaily, Mean, C.SortRows;
    var asc, cut := C.SortRows(rows), |rows| - holdout;
    UnitsSplit(asc, cut);
    assert asc[..cut] + asc[cut..] == asc;
  }

  /** A SKU can be replayed exactly under those conditions, and its replay holds exactly
      those forecasts and that demand. */
  lemma ReplayIs(rows: seq<C.Row>, holdout: int, correction: bool, root: nat -> real)
    ensures ReplayOf(rows, holdout, correction, root).Evaluable? <==> CanReplay(rows, holdout)
    ensures CanReplay(rows, holdout) ==> IsReplay(ReplayOf(rows, holdout, correction, root).replay, rows, holdout, correction, root)
  {
    CanReplayIs(rows, holdout, correction, root);
    if CanReplay(rows, holdout) {
      hide ReplayOf, IsReplay, C.SortRows;
      ReplayHolds(rows, holdout, correction, root);
    }
  }

  // ---- percentage errors and coverage, day by day ----

  // A day's percentage error, nothing on a day without demand.
  function DayError(pred: real, actual: real): real {
    if actual > 0.0 then Abs(pred - actual) / actual else 0.0
  }

  function DayErrors(pred: seq<real>, actual: seq<real>): seq<real>
    requires |pred| == |actual|
  {
    seq(|actual|, i requires 0 <= i < |actual| => DayError(pred[i], actual[i]))
  }

  /** The percentage errors of a replay total |forecast - demand| / demand over the days
      with demand, and number those days. */
  lemma {:induction false} ApesAre(pred: seq<real>, actual: seq<real>)
    requires |pred| == |actual|
    ensures Sum(Apes(pred, actual)) == Sum(DayErrors(pred, actual))
    ensures |Apes(pred, actual)| == |Positives(actual)|
  {
    if |actual| > 0 {
      var n := |actual| - 1;
      ApesAre(pred[..n], actual[..n]);
      assert DayErrors(pred, actual)[..n] == DayErrors(pred[..n], actual[..n]);
      ApesStep(pred, actual);
      hide Apes, DayErrors, DayError;
    }
  }

  lemma ApesStep(pred: seq<real>, actual: seq<real>)
    requires |pred| == |actual| > 0
    ensures var n := |actual| - 1;
      && Sum(Apes(pred, actual)) == Sum(Apes(pred[..n], actual[..n])) + DayError(pred[n], actual[n])
      && |Apes(pred, actual)| == |Apes(pred[..n], actual[..n])| + if actual[n] > 0.0 then 1 else 0
  {
    var n := |actual| - 1;
    var last := if actual[n] > 0.0 then [DayError(pred[n], actual[n])] else [];
    assert Apes(pred, actual) == Apes(pred[..n], actual[..n]) + last;
    hide Apes;
    SumConcat(Apes(pred[..n], actual[..n]), last);
    OneTerm(last);
  }

  lemma OneTerm(s: seq<real>)
    requires |s| <= 1
    ensures Sum(s) == if |s| == 0 then 0.0 else s[0]
  {
  }

  // Demand of day i within 0.6745 step sigmas of its forecast, the lower end not below zero.
  ghost predicate Inside(r: Replay, root: nat -> real, i: nat)
    requires i < |r.ensemble| && i < |r.actual|
  {
    var half := 0.6745 * (r.sigma * Min(root(i + 1), 2.0));
    r.actual[i] >= 0.0 && r.ensemble[i] - half <= r.actual[i] <= r.ensemble[i] + half
  }

  lemma CoversIs(r: Replay, root: nat -> real, i: nat)
    requires B.IsSquareRoot(root) && r.sigma >= 0.0 && i < |r.ensemble| && i < |r.actual|
    ensures Covers(r, root, i) <==> Inside(r, root, i)
  {
    B.SigmaAtShape(r.sigma, root, i + 1);
    hide B.IsSquareRoot, B.SigmaAt;
    assert Z_50 * (r.sigma * Min(root(i + 1), 2.0)) == 0.6745 * (r.sigma * Min(root(i + 1), 2.0));
  }

  // Those of the first n days.
  ghost function InsideDays(r: Replay, root: nat -> real, n: nat): set<nat>
    requires n <= |r.ensemble| && n <= |r.actual|
  {
    set i | 0 <= i < n && Inside(r, root, i)
  }

  lemma OneMoreDay(r: Replay, root: nat -> real, n: nat)
    requires 0 < n <= |r.ensemble| && n <= |r.actual|
    ensures |InsideDays(r, root, n)| == |InsideDays(r, root, n - 1)| + if Inside(r, root, n - 1) then 1 else 0
  {
    hide Inside;
    assert InsideDays(r, root, n) == InsideDays(r, root, n - 1) + if Inside(r, root, n - 1) then {n - 1} else {};
  }

  /** The covered days are exactly those inside the 50% interval. */
  lemma {:induction false} CoveredAre(r: Replay, root: nat -> real, n: nat)
    requires B.IsSquareRoot(root) && r.sigma >= 0.0 && n <= |r.ensemble| && n <= |r.actual|
    ensures Covered(r, root, n) == |InsideDays(r, root, n)|
  {
    if n == 0 {
      assert InsideDays(r, root, 0) == {};
    } else {
      CoveredAre(r, root, n - 1);
      CoversIs(r, root, n - 1);
      OneMoreDay(r, root, n);
      hide Inside, InsideDays, Covers, B.IsSquareRoot;
    }
  }

  // ---- a perfect replay ----

  // The ensemble was exact on every day and the legacy forecast was not.
  ghost predicate Perfect(r: Replay) {
    && Shaped(r) && r.ensemble == r.actual && r.sigma >= 0.0
    && (forall i :: 0 <= i < |r.actual| ==> r.actual[i] >= 0.0)
    && exists i :: 0 <= i < |r.actual| && r.actual[i] > 0.0 && r.v1[i] != r.actual[i]
  }

  lemma {:induction false} ExactApes(actual: seq<real>)
    ensures Sum(Apes(actual, actual)) == 0.0
  {
    ApesAre(actual, actual);
    hide Apes;
    forall i | 0 <= i < |actual| ensures DayErrors(actual, actual)[i] == 0.0 { if actual[i] > 0.0 { ZeroOver(actual[i]); } }
    SumBounds(DayErrors(actual, actual), 0.0, 0.0);
  }

  lemma ZeroOver(x: real)
    requires x > 0.0
    ensures 0.0 / x == 0.0
  {
  }

  lemma {:induction false} SomeApe(pred: seq<real>, actual: seq<real>, k: nat)
    requires |pred| == |actual| && k < |actual| && actual[k] > 0.0 && pred[k] != actual[k]
    ensures Sum(Apes(pred, actual)) > 0.0
  {
    ApesAre(pred, actual);
    hide Apes;
    forall i | 0 <= i < |actual| ensures DayErrors(pred, actual)[i] >= 0.0 {
      if actual[i] > 0.0 { Ratio(Abs(pred[i] - actual[i]), actual[i]); }
    }
    Ratio(Abs(pred[k] - actual[k]), actual[k]);
    L.SumOne(DayErrors(pred, actual), k);
  }

  lemma Ratio(a: real, b: real)
    requires a >= 0.0 && b > 0.0
    ensures a / b >= 0.0 && (a > 0.0 ==> a / b > 0.0)
  {
    var q := a / b;
    assert q * b == a;
    assert q < 0.0 ==> q * b < 0.0;
  }

  lemma {:induction false} AllCovered(r: Replay, root: nat -> real, n: nat)
    requires B.IsSquareRoot(root) && Perfect(r) && n <= |r.actual|
    ensures Covered(r, root, n) == n
  {
    if n > 0 {
      AllCovered(r, root, n - 1);
      B.SigmaAtShape(r.sigma, root, n);
    }
  }

  /** A perfect replay: no error and no bias for the ensemble, some for the exponential
      engine, and every day covered. */
  lemma PerfectMetrics(r: Replay, root: nat -> real)
    requires B.IsSquareRoot(root) && Perfect(r)
    ensures var m := MetricsOf(r, root);
      m.mapeEnsemble == 0.0 && m.mapeV1 > 0.0 && m.bias == 0.0 && m.coverage == 1.0
  {
    var k :| 0 <= k < |r.actual| && r.actual[k] > 0.0 && r.v1[k] != r.actual[k];
    hide Apes, Sum, Covered, Positives, B.IsSquareRoot;
    ExactApes(r.actual);
    SomeApe(r.v1, r.actual, k);
    AllCovered(r, root, |r.actual|);
    MeanOfSum(Apes(r.ensemble, r.actual));
    MeanOfSum(Apes(r.v1, r.actual));
    SelfRatio(|r.actual| as real);
    if Sum(r.actual) > 0.0 { ZeroOver(Sum(r.actual)); }
  }

  lemma SelfRatio(x: real)
    requires x > 0.0
    ensures x / x == 1.0
  {
  }

  lemma MeanOfSum(s: seq<real>)
    ensures Sum(s) == 0.0 ==> MeanOrZero(s) == 0.0
    ensures Sum(s) > 0.0 ==> MeanOrZero(s) > 0.0
  {
    if |s| > 0 && Sum(s) > 0.0 { Ratio(Sum(s), |s| as real); }
    if |s| > 0 && Sum(s) == 0.0 { ZeroOver(|s| as real); }
  }

  // ---- a SKU with a weekly pattern ----

  // One row a day, following a weekly pattern throughout, at least sixty days before a
  // hold-out of a week or more; the worked series is the history itself, with at least ten
  // units a day and a pattern of at least 0.30.
  ghost predicate WeeklySku(rows: seq<C.Row>, holdout: int, correction: bool) {
    && 7 <= holdout <= 365 && |rows| >= holdout + 60
    && var (asc, cut) := (C.SortRows(rows), |rows| - holdout);
       && (forall i :: 0 <= i < |asc| ==> asc[i].day == asc[0].day + i)
       && W.IsWeekly(C.Units(asc))
       && var t := C.Values(asc[..cut]);
          && E.Work(t, correction) == t
          && |t| > 0 && Mean(t) >= 10.0 && E.WeeklyStrength(t) >= 0.3
  }

  lemma DailyTail(start: int, u: seq<real>)
    requires |u| > 0
    ensures C.Values(C.AsRows(start, u)) == u[|u| - (if |u| > 730 then 730 else |u|)..]
  {
    var rows := C.AsRows(start, u);
    var k := if |u| > 730 then 730 else |u|;
    C.DenseRange(start, u);
    var values := C.Values(rows);
    hide C.FirstDay, C.LastDay, C.LastUnits;
    assert C.Start(rows) == start + (|u| - k) && C.Span(rows) == k;
    forall i | 0 <= i < k ensures values[i] == u[|u| - k + i] {
      C.DenseLookup(start, u, |u| - k + i);
      assert values[i] == C.UnitsOn(rows, start + (|u| - k + i));
    }
  }

  lemma DailyIsAsRows(rows: seq<C.Row>)
    requires |rows| > 0 && forall i :: 0 <= i < |rows| ==> rows[i].day == rows[0].day + i
    ensures rows == C.AsRows(rows[0].day, C.Units(rows))
  {
  }

  // A day of the pattern, found within any seven days in a row.
  lemma SameDay(u: seq<real>, s: nat, j: nat) returns (i: nat)
    requires W.IsWeekly(u) && s + 7 <= |u| && j < |u|
    ensures i < 7 && u[s + i] == u[j]
  {
    i := L.Residue(s, j % 7);
    hide W.IsWeekly;
    L.WeeklyAt(u, s + i);
    L.WeeklyAt(u, j);
  }

  lemma TailIsWeekly(u: seq<real>, s: nat)
    requires W.IsWeekly(u) && s + 7 <= |u|
    ensures W.IsWeekly(u[s..])
  {
    var t := u[s..];
    forall i | 0 <= i < |t| ensures t[i] == t[i % 7] >= 0.0 { TailDay(u, s, i); }
  }

  lemma TailDay(u: seq<real>, s: nat, i: nat)
    requires W.IsWeekly(u) && s + 7 <= |u| && s + i < |u|
    ensures u[s + i] == u[s + i % 7] >= 0.0
  {
    hide W.IsWeekly;
    L.WeeklyAt(u, s + i);
    L.WeeklyAt(u, s + i % 7);
    assert (s + i) % 7 == (s + i % 7) % 7;
  }

  // What follows the training days continues the pattern of their last `|t|`.
  lemma TailContinues(u: seq<real>, n: nat, s: nat, i: nat)
    requires W.IsWeekly(u) && s + 7 <= n && n + i < |u|
    ensures u[s..n][(n - s + i) % 7] == u[n + i]
  {
    var k := (n - s + i) % 7;
    hide W.IsWeekly;
    L.WeeklyAt(u, s + k);
    L.WeeklyAt(u, n + i);
    assert (s + k) % 7 == (n + i) % 7;
  }

  lemma {:induction false} SmoothedBelow(values: seq<real>, alpha: real, hi: real, j: nat)
    requires 0.0 < alpha < 1.0 && Within(values, 0.0, hi) && j < |values| && values[j] < hi
    ensures S.Smoothed(values, alpha) < hi
  {
    var n := |values| - 1;
    if n > 0 {
      S.SmoothedBetween(values[..n], alpha, 0.0, hi);
      if j < n { SmoothedBelow(values[..n], alpha, hi, j); }
      MixBelow(values[n], S.Smoothed(values[..n], alpha), alpha, hi);
    }
  }

  lemma MixBelow(x: real, y: real, alpha: real, hi: real)
    requires 0.0 < alpha < 1.0 && x <= hi && y <= hi && (x < hi || y < hi)
    ensures alpha * x + (1.0 - alpha) * y < hi
  {
    var beta := 1.0 - alpha;
    if x < hi { ScaledBelow(alpha, x, hi); }
    if y < hi { ScaledBelow(beta, y, hi); }
    assert alpha * hi + beta * hi == hi;
    SumBelow(alpha * x, beta * y, alpha * hi, beta * hi);
  }

  lemma ScaledBelow(a: real, x: real, hi: real)
    requires a > 0.0 && x < hi
    ensures a * x < a * hi
  {
    StrictProd(a, hi - x);
    assert a * hi == a * (x + (hi - x)) == a * x + a * (hi - x);
  }

  lemma SumBelow(p: real, q: real, a: real, b: real)
    requires p <= a && q <= b && (p < a || q < b)
    ensures p + q < a + b
  {
  }

  // Below its largest sale, unless it sold that every day.
  lemma LegacyBelow(values: seq<real>, hi: real, j: nat)
    requires hi > 0.0 && Within(values, 0.0, hi) && j < |values| && values[j] < hi
    ensures S.LegacyDaily(values) < hi
  {
    SmoothedBelow(values, S.LEGACY_ALPHA, hi, j);
    MeanBounds(values, 0.0, hi);
    var half := Mean(values) * 0.5;
    assert half < hi;
    assert S.Smoothed(values, S.LEGACY_ALPHA) < hi;
    assert S.LegacyDaily(values) == Max(S.Smoothed(values, S.LEGACY_ALPHA), half);
  }

  // ---- its replay is perfect ----

  // The facts of the split the proof works with: all units, and the series of the training rows.
  lemma WeeklyParts(rows: seq<C.Row>, holdout: int, correction: bool) returns (u: seq<real>, t: seq<real>, s: nat, n: nat)
    requires WeeklySku(rows, holdout, correction)
    ensures u == C.Units(C.SortRows(rows)) && n == |rows| - holdout == |u| - holdout && W.IsWeekly(u)
    ensures s + 60 <= n && t == C.Values(C.SortRows(rows)[..n]) == u[s..n] && W.IsWeekly(t)
    ensures Mean(t) >= 10.0 && E.WeeklyStrength(t) >= 0.3 && E.Work(t, correction) == t
    ensures C.Units(C.SortRows(rows)[..n]) == u[..n]
  {
    hide W.IsWeekly, C.SortRows, Mean, E.WeeklyStrength, E.Work, C.Values;
    var asc := C.SortRows(rows);
    u, n := C.Units(asc), |rows| - holdout;
    UnitsSplit(asc, n);
    DailyIsAsRows(asc[..n]);
    DailyTail(asc[0].day, u[..n]);
    s := if n > 730 then n - 730 else 0;
    t := u[s..n];
    assert u[..n][s..] == t;
    L.WeeklyPrefix(u, n);
    TailIsWeekly(u[..n], s);
  }

  // The ensemble fitted on the rows before the hold-out forecasts the hold-out.
  ghost predicate ExactBundle(rows: seq<C.Row>, holdout: nat, correction: bool, root: nat -> real)
    requires holdout <= |rows|
  {
    var asc, n := C.SortRows(rows), |rows| - holdout;
    var b := E.Ensemble(asc[..n], holdout, None, correction, root);
    && |b.predictions| == holdout && b.sigma >= 0.0
    && forall i :: 0 <= i < holdout ==> b.predictions[i] == asc[n + i].units
  }

  lemma WeeklyBundle(rows: seq<C.Row>, holdout: int, correction: bool, root: nat -> real)
    requires WeeklySku(rows, holdout, correction)
    ensures ExactBundle(rows, holdout, correction, root)
  {
    hide W.IsWeekly, C.SortRows, Mean, E.WeeklyStrength, E.Work, C.Values, E.Ensemble;
    var u, t, s, n := WeeklyParts(rows, holdout, correction);
    var asc := C.SortRows(rows);
    var b := E.Ensemble(asc[..n], holdout, None, correction, root);
    L.WeeklyHistoryIsContinued(asc[..n], holdout, correction, root);
    BundleLength(asc[..n], holdout, correction, root);
    SpreadNonneg(asc[..n], holdout, correction, root);
    forall i | 0 <= i < holdout ensures b.predictions[i] == asc[n + i].units {
      TailContinues(u, n, s, i);
      assert u[n + i] == asc[n + i].units;
    }
  }

  lemma SpreadNonneg(rows: seq<C.Row>, requested: int, correction: bool, root: nat -> real)
    requires E.Ensemble(rows, requested, None, correction, root).model == E.One(M.SeasonalHolt)
    ensures E.Ensemble(rows, requested, None, correction, root).sigma >= 0.0
  {
    hide E.Ensemble, C.Values, E.Work, Mean, L.ForecastOf, L.Banded, L.Scored, L.NoneBelow, L.Eligible, B.RobustSigma;
    var first, second, sigma := L.BundleAnswers(rows, requested, None, correction, root);
    RoundMono(0.0, sigma);
    ZeroRounds();
  }

  lemma ZeroRounds()
    ensures Round3(0.0) == 0.0
  {
  }

  // The legacy forecast stays below the best day, which the hold-out contains.
  lemma BestDayMissed(u: seq<real>, t: seq<real>, s: nat, n: nat) returns (i: nat)
    requires W.IsWeekly(u) && s + 60 <= n && n + 7 <= |u| && t == u[s..n] && W.IsWeekly(t)
    requires Mean(t) >= 10.0 && E.WeeklyStrength(t) >= 0.3
    ensures i < 7 && u[n + i] > 0.0 && S.LegacyDaily(u[..n]) < u[n + i]
  {
    var hi, lo := L.Extremes(t);
    hide Mean, E.WeeklyStrength, S.LegacyDaily, W.IsWeekly;
    var best := t[hi];
    i := SameDay(u, n, s + hi);
    forall j | 0 <= j < n ensures 0.0 <= u[..n][j] <= best {
      var k := SameDay(u, s, j);
      WeeklyNonneg(u, j);
      assert u[s + k] == t[k];
    }
    LegacyBelow(u[..n], best, s + lo);
  }

  lemma WeeklyMiss(rows: seq<C.Row>, holdout: int, correction: bool) returns (u: seq<real>, n: nat, i: nat)
    requires WeeklySku(rows, holdout, correction)
    ensures n == |rows| - holdout && u == C.Units(C.SortRows(rows)) && W.IsWeekly(u) && C.Units(C.SortRows(rows)[..n]) == u[..n]
    ensures i < 7 && n + i < |u| && u[n + i] > 0.0 && S.LegacyDaily(u[..n]) < u[n + i]
  {
    assert 7 <= holdout;
    hide WeeklySku, W.IsWeekly, Mean, E.WeeklyStrength, E.Work, C.Values, S.LegacyDaily, C.Units, C.SortRows;
    var t, s;
    u, t, s, n := WeeklyParts(rows, holdout, correction);
    i := BestDayMissed(u, t, s, n);
  }

  /** The replay of a SKU with a weekly pattern is perfect: the ensemble forecasts every
      hold-out day exactly and the exponential engine does not. */
  lemma WeeklySkuIsPerfect(rows: seq<C.Row>, holdout: int, correction: bool, root: nat -> real)
    requires WeeklySku(rows, holdout, correction)
    ensures ReplayOf(rows, holdout, correction, root).Evaluable?
    ensures Perfect(ReplayOf(rows, holdout, correction, root).replay)
  {
    assert 7 <= holdout <= 365 && |rows| >= holdout + 60;
    hide WeeklySku, W.IsWeekly, S.LegacyDaily, C.Units, C.SortRows, ExactBundle, ReplayOf, Perfect;
    var u, n, i := WeeklyMiss(rows, holdout, correction);
    WeeklyBundle(rows, holdout, correction, root);
    ReplayOfExact(rows, holdout, correction, root, u, n, i);
  }

  lemma ReplayOfExact(rows: seq<C.Row>, holdout: int, correction: bool, root: nat -> real, u: seq<real>, n: nat, i: nat)
    requires 7 <= holdout <= 365 && |rows| >= holdout + 60 && n == |rows| - holdout && u == C.Units(C.SortRows(rows)) && W.IsWeekly(u)
    requires C.Units(C.SortRows(rows)[..n]) == u[..n]
    requires ExactBundle(rows, holdout, correction, root)
    requires i < 7 && u[n + i] > 0.0 && S.LegacyDaily(u[..n]) < u[n + i]
    ensures ReplayOf(rows, holdout, correction, root).Evaluable?
    ensures Perfect(ReplayOf(rows, holdout, correction, root).replay)
  {
    assert C.SortRows(rows)[n + i].units == u[n + i];
    assert CanReplay(rows, holdout);
    hide W.IsWeekly, C.SortRows, C.Units, S.LegacyDaily, ReplayOf, CanReplay, IsReplay, ExactBundle, Perfect;
    ReplayIs(rows, holdout, correction, root);
    ReplayedExact(ReplayOf(rows, holdout, correction, root).replay, rows, holdout, correction, root, u, n, i);
  }

  lemma ReplayedExact(r: Replay, rows: seq<C.Row>, holdout: int, correction: bool, root: nat -> real, u: seq<real>, n: nat, i: nat)
    requires 7 <= holdout < |rows| && IsReplay(r, rows, holdout, correction, root) && ExactBundle(rows, holdout, correction, root)
    requires n == |rows| - holdout && u == C.Units(C.SortRows(rows)) && W.IsWeekly(u) && C.Units(C.SortRows(rows)[..n]) == u[..n]
    requires i < 7 && u[n + i] > 0.0 && S.LegacyDaily(u[..n]) < u[n + i]
    ensures Perfect(r)
  {
    hide W.IsWeekly, C.SortRows, C.Units, S.LegacyDaily, IsReplay, HoldsEnsemble, HoldsSales, ExactBundle, Perfect;
    ExactReplay(r, rows, holdout, correction, root);
    SalesOf(r, rows, holdout, correction, root, n);
    var asc := C.SortRows(rows);
    UnitsSplit(asc, n);
    ReplayData(r, asc[..n], asc[n..]);
    MissingReplay(r.actual, r.v1, u, n, S.LegacyDaily(u[..n]), i);
    IsPerfect(r, i);
  }

  lemma SalesOf(r: Replay, rows: seq<C.Row>, holdout: nat, correction: bool, root: nat -> real, n: nat)
    requires 1 <= holdout < |rows| && IsReplay(r, rows, holdout, correction, root) && n == |rows| - holdout
    ensures HoldsSales(r, C.SortRows(rows)[..n], C.SortRows(rows)[n..])
  {
    hide HoldsSales, HoldsEnsemble, C.SortRows;
  }

  lemma ExactReplay(r: Replay, rows: seq<C.Row>, holdout: nat, correction: bool, root: nat -> real)
    requires 1 <= holdout < |rows| && IsReplay(r, rows, holdout, correction, root) && ExactBundle(rows, holdout, correction, root)
    ensures |r.ensemble| == |r.v1| == |r.actual| == holdout && r.sigma >= 0.0
    ensures forall j :: 0 <= j < holdout ==> r.ensemble[j] == r.actual[j]
  {
    hide E.Ensemble, C.SortRows, S.LegacyDaily, Mean;
  }

  lemma WeeklyNonneg(u: seq<real>, i: nat)
    requires W.IsWeekly(u) && i < |u|
    ensures u[i] >= 0.0
  {
    hide W.IsWeekly;
    L.WeeklyAt(u, i);
  }

  lemma ReplayData(r: Replay, train: seq<C.Row>, test: seq<C.Row>)
    requires HoldsSales(r, train, test)
    ensures r.actual == C.Units(test) && |r.v1| == |test| && AllEqual(r.v1, S.LegacyDaily(C.Units(train)))
  {
    hide S.LegacyDaily, Mean;
  }

  // A constant forecast below one of the days.
  lemma MissingReplay(actual: seq<real>, v1: seq<real>, u: seq<real>, n: nat, low: real, i: nat)
    requires W.IsWeekly(u) && n <= |u| && actual == u[n..] && |v1| == |actual| && AllEqual(v1, low)
    requires i < |actual| && u[n + i] > 0.0 && low < u[n + i]
    ensures actual[i] > 0.0 && v1[i] != actual[i]
    ensures forall j :: 0 <= j < |actual| ==> actual[j] >= 0.0
  {
    hide W.IsWeekly;
    forall j | 0 <= j < |actual| ensures actual[j] >= 0.0 { WeeklyNonneg(u, n + j); }
  }

  lemma IsPerfect(r: Replay, i: nat)
    requires |r.ensemble| == |r.v1| == |r.actual| && i < |r.actual| && r.sigma >= 0.0
    requires forall j :: 0 <= j < |r.actual| ==> r.actual[j] >= 0.0 && r.ensemble[j] == r.actual[j]
    requires r.actual[i] > 0.0 && r.v1[i] != r.actual[i]
    ensures Perfect(r)
  {
    assert r.ensemble == r.actual;
  }

  // ---- a merchant of such SKUs is promoted ----

  lemma {:induction false} AllPerfect(histories: seq<seq<C.Row>>, holdout: int, correction: bool, root: nat -> real)
    requires forall i :: 0 <= i < |histories| ==> WeeklySku(histories[i], holdout, correction)
    ensures var rs := Replays(histories, holdout, correction, root);
      |rs| == |histories| && forall i :: 0 <= i < |rs| ==> Perfect(rs[i])
  {
    hide WeeklySku, Perfect, ReplayOf;
    if |histories| > 0 {
      var n := |histories| - 1;
      AllPerfect(histories[..n], holdout, correction, root);
      WeeklySkuIsPerfect(histories[n], holdout, correction, root);
    }
  }

  // What a list of perfect replays adds up to.
  lemma {:induction false} PerfectTotals(rs: seq<Replay>, root: nat -> real, daily: real)
    requires B.IsSquareRoot(root) && forall i :: 0 <= i < |rs| ==> Perfect(rs[i])
    ensures AllShaped(rs) && Sum(EnsembleApes(rs)) == 0.0 && (|rs| > 0 ==> Sum(V1Apes(rs)) > 0.0) && Sum(V1Apes(rs)) >= 0.0
    ensures HighPredicted(rs, daily) == HighActual(rs, daily) && DaysCovered(rs, root) == DaysTotal(rs)
  {
    hide Apes, Sum, Covered, B.IsSquareRoot, Shaped;
    assert AllShaped(rs) by { forall i | 0 <= i < |rs| ensures Shaped(rs[i]) { assert Perfect(rs[i]); } }
    if |rs| > 0 {
      var n := |rs| - 1;
      var r := rs[n];
      PerfectTotals(rs[..n], root, daily);
      PerfectAdds(r, root);
      SumConcat(EnsembleApes(rs[..n]), Apes(r.ensemble, r.actual));
      SumConcat(V1Apes(rs[..n]), Apes(r.v1, r.actual));
    } else {
      EmptySum();
    }
  }

  lemma PerfectAdds(r: Replay, root: nat -> real)
    requires B.IsSquareRoot(root) && Perfect(r)
    ensures |r.ensemble| == |r.v1| == |r.actual| && r.ensemble == r.actual
    ensures Sum(Apes(r.ensemble, r.actual)) == 0.0 && Sum(Apes(r.v1, r.actual)) > 0.0
    ensures Covered(r, root, |r.actual|) == |r.actual|
  {
    var k :| 0 <= k < |r.actual| && r.actual[k] > 0.0 && r.v1[k] != r.actual[k];
    hide Apes, Sum, Covered, B.IsSquareRoot;
    ExactApes(r.actual);
    SomeApe(r.v1, r.actual, k);
    AllCovered(r, root, |r.actual|);
  }

  lemma EmptySum()
    ensures Sum([]) == 0.0
  {
  }

  /** A merchant with at least three SKUs, all with a weekly pattern, and fourteen shadow
      days passes every gate. */
  lemma WeeklyMerchantIsPromoted(histories: seq<seq<C.Row>>, holdout: int, correction: bool, root: nat -> real,
                                 shadowDays: int, daily: real)
    requires B.IsSquareRoot(root) && shadowDays >= 14 && |histories| >= 3
    requires forall i :: 0 <= i < |histories| ==> WeeklySku(histories[i], holdout, correction)
    ensures AllGatesPass(shadowDays, Summarize(EvaluateAll(histories, holdout, correction, root), daily))
  {
    var rs := Replays(histories, holdout, correction, root);
    AllPerfect(histories, holdout, correction, root);
    EvaluatedReplays(histories, holdout, correction, root);
    hide WeeklySku, Perfect, Replays, EvaluateAll, EvaluableOnly, AllMetrics, Summarize, AllGatesPass, Sum, B.IsSquareRoot,
      EnsembleApes, V1Apes, HighPredicted, HighActual, DaysCovered, DaysTotal, AllShaped;
    PerfectTotals(rs, root, daily);
    PromotionMeans(shadowDays, EvaluateAll(histories, holdout, correction, root), rs, root, daily);
    GatesAreMet(HighPredicted(rs, daily), HighActual(rs, daily), DaysCovered(rs, root), DaysTotal(rs));
  }

  lemma GatesAreMet(p: real, a: real, covered: nat, days: nat)
    requires p == a && covered == days
    ensures a > 0.0 ==> Abs(p - a) <= BIAS_MAX * a
    ensures covered as real >= COVERAGE_MIN * days as real
  {
  }
}
