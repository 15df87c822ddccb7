/** Replaying both engines on a hold-out window per SKU, pooling the figures of a
    merchant's SKUs, and the promotion gates read from the pooled figures. */
module HoldoutPooling {
  import opened Options
  import opened RealSeq
  import S = Smoothing
  import R = RobustSpread
  import C = Calendar
  import E = Ensemble

  const EVAL_MIN_TRAIN_DAYS := 14
  const Z_50 := 0.6745
  const SHADOW_MIN_DAYS := 14
  const MIN_EVALUABLE_SKUS := 3
  const MAPE_RATIO_MAX := 0.85
  const BIAS_MAX := 0.08
  const COVERAGE_MIN := 0.45

  datatype Reason = NoHoldout | InsufficientHistory | NoPositiveDemand | EnsembleShort

  // Everything one evaluable SKU contributes: both forecasts and the demand, day by day.
  datatype Replay = Replay(ensemble: seq<real>, v1: seq<real>, actual: seq<real>, sigma: real, avgDaily: real)

  datatype Replayed = Evaluable(replay: Replay) | NotEvaluable(reason: Reason)

  datatype Metrics = Metrics(avgDaily: real, mapeEnsemble: real, mapeV1: real, bias: real, coverage: real,
                             positiveDays: nat, actualSum: real, holdoutDays: nat, evaluable: bool)

  // ---- one SKU ----

  function ReplayOf(rows: seq<C.Row>, holdout: int, correction: bool, root: nat -> real): Replayed {
    if holdout < 1 then NotEvaluable(NoHoldout)
    else
      var asc := C.SortRows(rows);
      var values := C.Units(asc);
      if |values| < holdout + EVAL_MIN_TRAIN_DAYS then NotEvaluable(InsufficientHistory)
      else
        var cut := |values| - holdout;
        var actual := values[cut..];
        if forall i :: 0 <= i < |actual| ==> actual[i] <= 0.0 then NotEvaluable(NoPositiveDemand)
        else
          var bundle := E.Ensemble(asc[..cut], holdout, None, correction, root);
          if |bundle.predictions| < holdout then NotEvaluable(EnsembleShort)
          else Evaluable(Replay(bundle.predictions[..holdout], Repeat(S.LegacyDaily(values[..cut]), holdout), actual,
                                bundle.sigma, Mean(values)))
  }

  /** Absolute percentage errors of the days with positive demand. */
  function Apes(pred: seq<real>, actual: seq<real>): seq<real>
    requires |pred| == |actual|
  {
    if |actual| == 0 then []
    else
      var n := |actual| - 1;
      Apes(pred[..n], actual[..n]) + if actual[n] > 0.0 then [Abs(pred[n] - actual[n]) / actual[n]] else []
  }

  predicate Covers(r: Replay, root: nat -> real, i: nat)
    requires i < |r.ensemble| && i < |r.actual|
  {
    var w := Z_50 * R.SigmaAt(r.sigma, root, i + 1);
    Max(0.0, r.ensemble[i] - w) <= r.actual[i] <= r.ensemble[i] + w
  }

  /** Hold-out days, of the first n, inside the 50% interval. */
  function Covered(r: Replay, root: nat -> real, n: nat): (c: nat)
    requires n <= |r.ensemble| && n <= |r.actual|
    ensures c <= n
  {
    if n == 0 then 0 else Covered(r, root, n - 1) + if Covers(r, root, n - 1) then 1 else 0
  }

  ghost predicate Shaped(r: Replay) {
    && |r.ensemble| == |r.v1| == |r.actual| > 0
    && exists i :: 0 <= i < |r.actual| && r.actual[i] > 0.0
  }

  function MetricsOf(r: Replay, root: nat -> real): Metrics
    requires |r.ensemble| == |r.v1| == |r.actual| > 0
  {
    var total := Sum(r.actual);
    var n := |r.actual|;
    Metrics(r.avgDaily, MeanOrZero(Apes(r.ensemble, r.actual)), MeanOrZero(Apes(r.v1, r.actual)),
            if total > 0.0 then (Sum(r.ensemble) - total) / total else 0.0,
            Covered(r, root, n) as real / n as real, |Positives(r.actual)|, total, n, true)
  }

  const NO_METRICS := Metrics(0.0, 0.0, 0.0, 0.0, 0.0, 0, 0.0, 0, false)

  lemma {:induction false} ReplayIsShaped(rows: seq<C.Row>, holdout: int, correction: bool, root: nat -> real)
    requires ReplayOf(rows, holdout, correction, root).Evaluable?
    ensures Shaped(ReplayOf(rows, holdout, correction, root).replay)
    ensures |ReplayOf(rows, holdout, correction, root).replay.actual| == holdout
  {
    hide E.Ensemble, C.SortRows, S.LegacyDaily, Mean;
  }

  method EvaluateSkuHoldout(rows: seq<C.Row>, holdout: int, correction: bool, root: nat -> real) returns (m: Metrics)
    ensures var r := ReplayOf(rows, holdout, correction, root);
      if r.Evaluable? then Shaped(r.replay) && m == MetricsOf(r.replay, root) else m == NO_METRICS
  {
    hide E.Ensemble, S.LegacyDaily, Mean, Apes, Sum, Positives, Covers;
    var replayed := ReplayOf(rows, holdout, correction, root);
    if replayed.NotEvaluable? {
      return NO_METRICS;
    }
    ReplayIsShaped(rows, holdout, correction, root);
    var r := replayed.replay;
    var n := |r.actual|;
    var total := Sum(r.actual);
    var covered := 0;
    for i := 0 to n
      invariant covered == Covered(r, root, i)
    {
      if Covers(r, root, i) {
        covered := covered + 1;
      }
    }
    m := Metrics(r.avgDaily, MeanOrZero(Apes(r.ensemble, r.actual)), MeanOrZero(Apes(r.v1, r.actual)),
                 if total > 0.0 then (Sum(r.ensemble) - total) / total else 0.0,
                 covered as real / n as real, |Positives(r.actual)|, total, n, true);
  }

  // ---- which day is scored against which ----

  /** The day the i-th forecast of a model trained on these rows is for. */
  function ForecastDay(train: seq<C.Row>, i: nat): int
    requires |train| > 0
  {
    C.Dates(train)[|C.Dates(train)| - 1] + 1 + i
  }

  // How many days after its forecast's day the i-th scored row lies.
  function Lag(rows: seq<C.Row>, holdout: nat, i: nat): int
    requires i < holdout < |rows|
  {
    var asc := C.SortRows(rows);
    var cut := |rows| - holdout;
    asc[cut + i].day - ForecastDay(asc[..cut], i)
  }

  // No two of the hold-out rows and the last training row share a day.
  ghost predicate OneRowADay(rows: seq<C.Row>, holdout: nat)
    requires holdout < |rows|
  {
    var asc := C.SortRows(rows);
    forall i, j :: |rows| - holdout - 1 <= i < j < |rows| ==> asc[i].day != asc[j].day
  }

  lemma {:induction false} LagFromRows(rows: seq<C.Row>, holdout: nat, i: nat)
    requires i < holdout < |rows|
    ensures var asc := C.SortRows(rows); var cut := |rows| - holdout;
      C.Sorted(asc) && Lag(rows, holdout, i) == asc[cut + i].day - asc[cut - 1].day - 1 - i
  {
    var asc, cut := C.SortRows(rows), |rows| - holdout;
    C.SortSorts(rows);
    C.LastOfSorted(asc[..cut]);
    C.SeriesIsDense(asc[..cut]);
  }

  lemma LagGrows(rows: seq<C.Row>, holdout: nat, i: nat)
    requires i < holdout < |rows| && OneRowADay(rows, holdout)
    ensures i == 0 ==> Lag(rows, holdout, 0) >= 0
    ensures i + 1 < holdout ==> Lag(rows, holdout, i) <= Lag(rows, holdout, i + 1)
  {
    LagFromRows(rows, holdout, i);
    if i + 1 < holdout { LagFromRows(rows, holdout, i + 1); }
  }

  lemma {:induction false} LagAtMostLater(rows: seq<C.Row>, holdout: nat, i: nat, j: nat)
    requires i <= j < holdout < |rows| && OneRowADay(rows, holdout)
    ensures 0 <= Lag(rows, holdout, i) <= Lag(rows, holdout, j)
    decreases j
  {
    hide Lag, OneRowADay;
    if i < j {
      LagAtMostLater(rows, holdout, i, j - 1);
      LagGrows(rows, holdout, j - 1);
    } else if j > 0 {
      LagAtMostLater(rows, holdout, j - 1, j - 1);
      LagGrows(rows, holdout, j - 1);
    } else {
      LagGrows(rows, holdout, 0);
    }
  }

  ghost predicate ScoredOnTheirDays(rows: seq<C.Row>, holdout: nat)
    requires holdout < |rows|
  {
    forall i :: 0 <= i < holdout ==> Lag(rows, holdout, i) == 0
  }

  lemma {:induction false} AlignedDay(rows: seq<C.Row>, holdout: nat, k: nat)
    requires holdout < |rows| && ScoredOnTheirDays(rows, holdout) && |rows| - holdout - 1 <= k < |rows|
    ensures var asc, first := C.SortRows(rows), |rows| - holdout - 1;
      asc[k].day == asc[first].day + (k - first)
  {
    var first := |rows| - holdout - 1;
    if k > first {
      LagFromRows(rows, holdout, k - first - 1);
      assert Lag(rows, holdout, k - first - 1) == 0;
    }
  }

  lemma AlignedMeansOneADay(rows: seq<C.Row>, holdout: nat)
    requires 1 <= holdout < |rows| && ScoredOnTheirDays(rows, holdout)
    ensures OneRowADay(rows, holdout)
  {
    hide ScoredOnTheirDays;
    var asc := C.SortRows(rows);
    forall i, j | |rows| - holdout - 1 <= i < j < |rows| ensures asc[i].day != asc[j].day {
      AlignedDay(rows, holdout, i);
      AlignedDay(rows, holdout, j);
    }
  }

  lemma LastLag(rows: seq<C.Row>, holdout: nat)
    requires 1 <= holdout < |rows|
    ensures Lag(rows, holdout, holdout - 1) == C.LastDay(rows) - C.LastDay(C.SortRows(rows)[..|rows| - holdout]) - holdout
  {
    hide C.LastDay, C.SortRows, Lag;
    var asc, cut := C.SortRows(rows), |rows| - holdout;
    LagFromRows(rows, holdout, holdout - 1);
    C.LastOfSorted(asc);
    C.LastOfSorted(asc[..cut]);
    C.SortKeepsRange(rows);
  }

  /** Every hold-out row is scored against the forecast for its own day exactly when its
      days are distinct and the hold-out spans as many calendar days as it has rows. */
  lemma ReplayDaysAlign(rows: seq<C.Row>, holdout: nat)
    requires 1 <= holdout < |rows|
    ensures ScoredOnTheirDays(rows, holdout)
      <==> OneRowADay(rows, holdout)
           && C.LastDay(rows) - C.LastDay(C.SortRows(rows)[..|rows| - holdout]) == holdout
  {
    hide OneRowADay, Lag, C.SortRows, C.LastDay;
    LastLag(rows, holdout);
    if OneRowADay(rows, holdout) && Lag(rows, holdout, holdout - 1) == 0 {
      forall i | 0 <= i < holdout ensures Lag(rows, holdout, i) == 0 { LagAtMostLater(rows, holdout, i, holdout - 1); }
    }
    if ScoredOnTheirDays(rows, holdout) { AlignedMeansOneADay(rows, holdout); }
  }

  /** One day without a row, and the demand of day 15 is scored against the forecast for day 14. */
  lemma GapShiftsReplay()
    ensures var rows := seq(15, i => C.Row(if i < 14 then i else 15, 1.0));
      |rows| == 15 && C.SortRows(rows)[14].day == 15 && ForecastDay(C.SortRows(rows)[..14], 0) == 14
  {
    var rows := seq(15, i => C.Row(if i < 14 then i else 15, 1.0));
    C.SortedStays(rows);
    LagFromRows(rows, 1, 0);
  }

  // ---- pooling ----

  datatype Summary = Summary(evaluable: nat, mapeEnsemble: real, mapeV1: real, ratio: Option<real>,
                             biasHighVelocity: Option<real>, coverage: real)

  function EvaluableOnly(ms: seq<Metrics>): seq<Metrics> {
    if |ms| == 0 then []
    else EvaluableOnly(ms[..|ms| - 1]) + if ms[|ms| - 1].evaluable then [ms[|ms| - 1]] else []
  }

  function HighVelocity(ms: seq<Metrics>, daily: real): (r: seq<Metrics>)
    ensures forall i :: 0 <= i < |r| ==> r[i].actualSum > 0.0
  {
    if |ms| == 0 then []
    else
      var m := ms[|ms| - 1];
      HighVelocity(ms[..|ms| - 1], daily) + if m.avgDaily >= daily && m.actualSum > 0.0 then [m] else []
  }

  function Each(ms: seq<Metrics>, f: Metrics -> real): (r: seq<real>)
    ensures |r| == |ms|
  {
    seq(|ms|, i requires 0 <= i < |ms| => f(ms[i]))
  }

  function PositiveDays(ms: seq<Metrics>): nat {
    if |ms| == 0 then 0 else PositiveDays(ms[..|ms| - 1]) + ms[|ms| - 1].positiveDays
  }

  function HoldoutDays(ms: seq<Metrics>): nat {
    if |ms| == 0 then 0 else HoldoutDays(ms[..|ms| - 1]) + ms[|ms| - 1].holdoutDays
  }

  function OrOne(n: nat): (k: nat)
    ensures k > 0
  {
    if n == 0 then 1 else n
  }

  function Summarize(perSku: seq<Metrics>, highVelocityDaily: real): Summary {
    var ev := EvaluableOnly(perSku);
    if |ev| == 0 then Summary(0, 0.0, 0.0, None, None, 0.0)
    else
      var days := OrOne(PositiveDays(ev)) as real;
      var ens := Sum(Each(ev, EnsembleWeight)) / days;
      var v1 := Sum(Each(ev, V1Weight)) / days;
      var hv := HighVelocity(ev, highVelocityDaily);
      var den := Sum(Each(hv, Demand));
      Summary(|ev|, ens, v1, if v1 > 0.0 then Some(ens / v1) else None,
              if |hv| > 0 && den > 0.0 then Some(Sum(Each(hv, BiasWeight)) / den) else None,
              Sum(Each(ev, CoverageWeight)) / OrOne(HoldoutDays(ev)) as real)
  }

  function EnsembleWeight(m: Metrics): real { m.mapeEnsemble * m.positiveDays as real }
  function V1Weight(m: Metrics): real { m.mapeV1 * m.positiveDays as real }
  function BiasWeight(m: Metrics): real { m.bias * m.actualSum }
  function Demand(m: Metrics): real { m.actualSum }
  function CoverageWeight(m: Metrics): real { m.coverage * m.holdoutDays as real }

  // ---- the flattened figures ----

  ghost predicate AllShaped(rs: seq<Replay>) {
    forall i :: 0 <= i < |rs| ==> Shaped(rs[i])
  }

  function AllMetrics(rs: seq<Replay>, root: nat -> real): (r: seq<Metrics>)
    requires forall i :: 0 <= i < |rs| ==> |rs[i].ensemble| == |rs[i].v1| == |rs[i].actual| > 0
    ensures |r| == |rs|
  {
    seq(|rs|, i requires 0 <= i < |rs| => MetricsOf(rs[i], root))
  }

  /** All ensemble percentage errors of all positive hold-out days of all SKUs. */
  ghost function EnsembleApes(rs: seq<Replay>): seq<real>
    requires AllShaped(rs)
  {
    if |rs| == 0 then []
    else var r := rs[|rs| - 1]; EnsembleApes(rs[..|rs| - 1]) + Apes(r.ensemble, r.actual)
  }

  ghost function V1Apes(rs: seq<Replay>): seq<real>
    requires AllShaped(rs)
  {
    if |rs| == 0 then []
    else var r := rs[|rs| - 1]; V1Apes(rs[..|rs| - 1]) + Apes(r.v1, r.actual)
  }

  ghost function DaysCovered(rs: seq<Replay>, root: nat -> real): nat
    requires AllShaped(rs)
  {
    if |rs| == 0 then 0
    else DaysCovered(rs[..|rs| - 1], root) + Covered(rs[|rs| - 1], root, |rs[|rs| - 1].actual|)
  }

  ghost function DaysTotal(rs: seq<Replay>): nat {
    if |rs| == 0 then 0 else DaysTotal(rs[..|rs| - 1]) + |rs[|rs| - 1].actual|
  }

  ghost predicate IsHighVelocity(r: Replay, daily: real) {
    r.avgDaily >= daily && Sum(r.actual) > 0.0
  }

  ghost function HighActual(rs: seq<Replay>, daily: real): real {
    if |rs| == 0 then 0.0
    else HighActual(rs[..|rs| - 1], daily) + if IsHighVelocity(rs[|rs| - 1], daily) then Sum(rs[|rs| - 1].actual) else 0.0
  }

  ghost function HighPredicted(rs: seq<Replay>, daily: real): real {
    if |rs| == 0 then 0.0
    else HighPredicted(rs[..|rs| - 1], daily) + if IsHighVelocity(rs[|rs| - 1], daily) then Sum(rs[|rs| - 1].ensemble) else 0.0
  }

  // ---- per-SKU weights undo the per-SKU averages ----

  lemma TimesBack(a: real, b: real)
    requires b != 0.0
    ensures a / b * b == a
  {
  }

  lemma {:induction false} ApeCount(pred: seq<real>, actual: seq<real>)
    requires |pred| == |actual|
    ensures |Apes(pred, actual)| == |Positives(actual)|
  {
    if |actual| > 0 { ApeCount(pred[..|actual| - 1], actual[..|actual| - 1]); }
  }

  lemma MeanTimes(s: seq<real>)
    ensures MeanOrZero(s) * |s| as real == Sum(s)
  {
    if |s| > 0 { TimesBack(Sum(s), |s| as real); }
  }

  lemma {:induction false} MapeWeights(r: Replay, root: nat -> real)
    requires Shaped(r)
    ensures EnsembleWeight(MetricsOf(r, root)) == Sum(Apes(r.ensemble, r.actual))
    ensures V1Weight(MetricsOf(r, root)) == Sum(Apes(r.v1, r.actual))
  {
    hide Apes, Sum, Covered, MeanOrZero, Positives;
    MeanTimes(Apes(r.ensemble, r.actual));
    MeanTimes(Apes(r.v1, r.actual));
    ApeCount(r.ensemble, r.actual);
    ApeCount(r.v1, r.actual);
  }

  lemma CoveredWeight(r: Replay, root: nat -> real)
    requires Shaped(r)
    ensures CoverageWeight(MetricsOf(r, root)) == Covered(r, root, |r.actual|) as real
  {
    hide Apes, Sum, Covered, MeanOrZero, Positives;
    TimesBack(Covered(r, root, |r.actual|) as real, |r.actual| as real);
  }

  lemma {:induction false} BiasTotal(r: Replay, root: nat -> real)
    requires Shaped(r) && Sum(r.actual) > 0.0
    ensures BiasWeight(MetricsOf(r, root)) == Sum(r.ensemble) - Sum(r.actual)
  {
    hide Apes, Sum, Covered, MeanOrZero, Positives;
    TimesBack(Sum(r.ensemble) - Sum(r.actual), Sum(r.actual));
  }

  lemma {:induction false} ApeDays(r: Replay, root: nat -> real)
    requires Shaped(r)
    ensures MetricsOf(r, root).positiveDays == |Apes(r.ensemble, r.actual)| == |Apes(r.v1, r.actual)| > 0
  {
    hide Apes, Sum, Covered, MeanOrZero;
    ApeCount(r.ensemble, r.actual);
    ApeCount(r.v1, r.actual);
  }

  lemma EachPush(ms: seq<Metrics>, m: Metrics, f: Metrics -> real)
    ensures Sum(Each(ms + [m], f)) == Sum(Each(ms, f)) + f(m)
  {
    assert Each(ms + [m], f) == Each(ms, f) + [f(m)];
    SumPush(Each(ms, f), f(m));
  }

  lemma {:induction false} PooledSums(rs: seq<Replay>, root: nat -> real)
    requires AllShaped(rs)
    ensures var ms := AllMetrics(rs, root);
      && Sum(Each(ms, EnsembleWeight)) == Sum(EnsembleApes(rs))
      && Sum(Each(ms, V1Weight)) == Sum(V1Apes(rs))
      && Sum(Each(ms, CoverageWeight)) == DaysCovered(rs, root) as real
      && PositiveDays(ms) == |EnsembleApes(rs)| == |V1Apes(rs)|
      && HoldoutDays(ms) == DaysTotal(rs)
      && PositiveDays(ms) >= |rs| && HoldoutDays(ms) >= |rs|
  {
    hide MetricsOf, Apes, Sum, Covered, Each, EnsembleWeight, V1Weight, CoverageWeight;
    if |rs| == 0 {
      NoWeights(EnsembleWeight);
      NoWeights(V1Weight);
      NoWeights(CoverageWeight);
      assert AllMetrics(rs, root) == [];
    } else {
      var n := |rs| - 1;
      var r := rs[n];
      var m := MetricsOf(r, root);
      var ms := AllMetrics(rs[..n], root);
      PooledSums(rs[..n], root);
      assert AllMetrics(rs, root) == ms + [m];
      assert (ms + [m])[..n] == ms;
      MapeWeights(r, root);
      CoveredWeight(r, root);
      ApeDays(r, root);
      SizesOf(r, root);
      EachPush(ms, m, EnsembleWeight);
      EachPush(ms, m, V1Weight);
      EachPush(ms, m, CoverageWeight);
      SumConcat(EnsembleApes(rs[..n]), Apes(r.ensemble, r.actual));
      SumConcat(V1Apes(rs[..n]), Apes(r.v1, r.actual));
    }
  }

  lemma SizesOf(r: Replay, root: nat -> real)
    requires Shaped(r)
    ensures MetricsOf(r, root).holdoutDays == |r.actual| > 0 && MetricsOf(r, root).evaluable
    ensures MetricsOf(r, root).avgDaily == r.avgDaily && MetricsOf(r, root).actualSum == Sum(r.actual)
  {
  }

  lemma NoWeights(f: Metrics -> real)
    ensures Sum(Each([], f)) == 0.0
  {
  }

  lemma {:induction false} PooledBias(rs: seq<Replay>, root: nat -> real, daily: real)
    requires AllShaped(rs)
    ensures var hv := HighVelocity(AllMetrics(rs, root), daily);
      && Sum(Each(hv, Demand)) == HighActual(rs, daily)
      && Sum(Each(hv, BiasWeight)) == HighPredicted(rs, daily) - HighActual(rs, daily)
      && (|hv| > 0 <==> HighActual(rs, daily) > 0.0) && HighActual(rs, daily) >= 0.0
  {
    hide MetricsOf, Apes, Sum, Covered, Each, BiasWeight;
    if |rs| == 0 {
      NoWeights(Demand);
      NoWeights(BiasWeight);
      assert AllMetrics(rs, root) == [];
    } else {
      var n := |rs| - 1;
      var r := rs[n];
      var m := MetricsOf(r, root);
      var ms := AllMetrics(rs[..n], root);
      PooledBias(rs[..n], root, daily);
      assert AllMetrics(rs, root) == ms + [m];
      assert (ms + [m])[..n] == ms;
      SizesOf(r, root);
      var hv := HighVelocity(ms, daily);
      if IsHighVelocity(r, daily) {
        BiasTotal(r, root);
        assert HighVelocity(ms + [m], daily) == hv + [m];
        EachPush(hv, m, Demand);
        EachPush(hv, m, BiasWeight);
      } else {
        assert HighVelocity(ms + [m], daily) == hv + [];
        assert hv + [] == hv;
      }
    }
  }

  /** Pooling equals flattening: the pooled MAPEs are the mean percentage errors over all
      positive hold-out days of all evaluable SKUs, the pooled coverage is covered days
      over all days, and the pooled bias is predicted minus actual over actual demand of
      the high-velocity SKUs, absent exactly when there is none. */
  lemma {:induction false} PoolingIsFlattening(perSku: seq<Metrics>, rs: seq<Replay>, root: nat -> real, daily: real)
    requires AllShaped(rs) && |rs| > 0 && EvaluableOnly(perSku) == AllMetrics(rs, root)
    ensures var s := Summarize(perSku, daily);
      && s.evaluable == |rs|
      && |EnsembleApes(rs)| > 0 && s.mapeEnsemble == Mean(EnsembleApes(rs))
      && |V1Apes(rs)| > 0 && s.mapeV1 == Mean(V1Apes(rs))
      && DaysTotal(rs) > 0 && s.coverage == DaysCovered(rs, root) as real / DaysTotal(rs) as real
      && (s.biasHighVelocity.Some? <==> HighActual(rs, daily) > 0.0)
      && (s.biasHighVelocity.Some? ==>
            s.biasHighVelocity.value == (HighPredicted(rs, daily) - HighActual(rs, daily)) / HighActual(rs, daily))
  {
    hide MetricsOf, AllMetrics, Each, Sum, EnsembleApes, V1Apes, HighVelocity, EnsembleWeight, V1Weight, BiasWeight, CoverageWeight;
    PooledSums(rs, root);
    PooledBias(rs, root, daily);
  }

  // ---- from sales histories ----

  function Evaluate(rows: seq<C.Row>, holdout: int, correction: bool, root: nat -> real): Metrics {
    var r := ReplayOf(rows, holdout, correction, root);
    if r.Evaluable? then
      ReplayIsShaped(rows, holdout, correction, root);
      MetricsOf(r.replay, root)
    else NO_METRICS
  }

  function EvaluateAll(histories: seq<seq<C.Row>>, holdout: int, correction: bool, root: nat -> real): seq<Metrics> {
    seq(|histories|, i requires 0 <= i < |histories| => Evaluate(histories[i], holdout, correction, root))
  }

  /** The replays of the SKUs that can be evaluated. */
  function Replays(histories: seq<seq<C.Row>>, holdout: int, correction: bool, root: nat -> real): seq<Replay> {
    if |histories| == 0 then []
    else
      var r := ReplayOf(histories[|histories| - 1], holdout, correction, root);
      Replays(histories[..|histories| - 1], holdout, correction, root) + if r.Evaluable? then [r.replay] else []
  }

  /** Evaluating a merchant's SKUs yields well-formed replays, and their metrics are what gets pooled. */
  lemma {:induction false} EvaluatedReplays(histories: seq<seq<C.Row>>, holdout: int, correction: bool, root: nat -> real)
    ensures AllShaped(Replays(histories, holdout, correction, root))
    ensures EvaluableOnly(EvaluateAll(histories, holdout, correction, root))
         == AllMetrics(Replays(histories, holdout, correction, root), root)
  {
    hide ReplayOf, MetricsOf;
    if |histories| > 0 {
      var n := |histories| - 1;
      EvaluatedReplays(histories[..n], holdout, correction, root);
      var all := EvaluateAll(histories, holdout, correction, root);
      assert all[..n] == EvaluateAll(histories[..n], holdout, correction, root);
      var r := ReplayOf(histories[n], holdout, correction, root);
      if r.Evaluable? {
        ReplayIsShaped(histories[n], holdout, correction, root);
        SizesOf(r.replay, root);
      }
    }
  }

  // ---- promotion gates ----

  predicate AllGatesPass(shadowDays: int, s: Summary) {
    && shadowDays >= SHADOW_MIN_DAYS
    && s.evaluable >= MIN_EVALUABLE_SKUS
    && s.ratio.Some? && s.ratio.value <= MAPE_RATIO_MAX
    && (s.biasHighVelocity.Some? ==> Abs(s.biasHighVelocity.value) <= BIAS_MAX)
    && s.coverage >= COVERAGE_MIN
  }

  lemma RatioGate(a: real, b: real, n: real, c: real)
    requires n > 0.0 && b / n > 0.0
    ensures (a / n) / (b / n) <= c <==> a <= c * b
  {
    var x, y := a / n, b / n;
    assert x * n == a && y * n == b;
    var q := x / y;
    assert q * y == x;
    assert q * b == a by { assert q * (y * n) == (q * y) * n; }
    StrictProd(y, n);
    assert q <= c ==> q * b <= c * b;
    assert q > c ==> q * b > c * b;
  }

  lemma AtLeastGate(a: real, n: real, c: real)
    requires n > 0.0
    ensures a / n >= c <==> a >= c * n
    ensures Abs(a / n) <= c <==> Abs(a) <= c * n
    ensures a / n > 0.0 <==> a > 0.0
  {
    var q := a / n;
    assert q * n == a;
    assert q >= c ==> q * n >= c * n;
    assert q < c ==> q * n < c * n;
    assert q <= c ==> q * n <= c * n;
    assert q > c ==> q * n > c * n;
    assert -q <= c ==> -q * n <= c * n;
    assert -q > c ==> -q * n > c * n;
    assert q > 0.0 ==> q * n > 0.0;
    assert q <= 0.0 ==> q * n <= 0.0;
  }

  /** What promotion proves, day by day: all gates pass exactly when there are enough
      shadow days and SKUs, the exponential engine made some error, the ensemble's
      total percentage error is at most 85% of it, its total on high-velocity SKUs is
      within 8% of demand, and at least 45% of all hold-out days were covered. */
  lemma {:induction false} PromotionMeans(shadowDays: int, perSku: seq<Metrics>, rs: seq<Replay>, root: nat -> real, daily: real)
    requires AllShaped(rs) && |rs| > 0 && EvaluableOnly(perSku) == AllMetrics(rs, root)
    ensures AllGatesPass(shadowDays, Summarize(perSku, daily)) <==>
      && shadowDays >= 14 && |rs| >= 3
      && Sum(V1Apes(rs)) > 0.0 && Sum(EnsembleApes(rs)) <= 0.85 * Sum(V1Apes(rs))
      && (HighActual(rs, daily) > 0.0 ==>
            Abs(HighPredicted(rs, daily) - HighActual(rs, daily)) <= 0.08 * HighActual(rs, daily))
      && DaysCovered(rs, root) as real >= 0.45 * DaysTotal(rs) as real
  {
    hide Summarize, AllMetrics, Sum;
    RatioGateMeans(perSku, rs, root, daily);
    BiasGateMeans(perSku, rs, root, daily);
    CoverageGateMeans(perSku, rs, root, daily);
  }

  lemma {:induction false} RatioGateMeans(perSku: seq<Metrics>, rs: seq<Replay>, root: nat -> real, daily: real)
    requires AllShaped(rs) && |rs| > 0 && EvaluableOnly(perSku) == AllMetrics(rs, root)
    ensures var s := Summarize(perSku, daily);
      s.ratio.Some? && s.ratio.value <= MAPE_RATIO_MAX
      <==> Sum(V1Apes(rs)) > 0.0 && Sum(EnsembleApes(rs)) <= MAPE_RATIO_MAX * Sum(V1Apes(rs))
  {
    hide Summarize, AllMetrics, Sum, EnsembleApes, V1Apes, DaysCovered, DaysTotal, HighActual, HighPredicted;
    PoolingIsFlattening(perSku, rs, root, daily);
    PooledSums(rs, root);
    RatioField(perSku, daily);
    RatioScalar(Summarize(perSku, daily).ratio, Sum(EnsembleApes(rs)), Sum(V1Apes(rs)), |V1Apes(rs)| as real, MAPE_RATIO_MAX);
  }

  lemma RatioScalar(ratio: Option<real>, a: real, b: real, n: real, c: real)
    requires n > 0.0 && ratio == if b / n > 0.0 then Some((a / n) / (b / n)) else None
    ensures ratio.Some? && ratio.value <= c <==> b > 0.0 && a <= c * b
  {
    AtLeastGate(b, n, 0.0);
    if b > 0.0 { RatioGate(a, b, n, c); }
  }

  lemma {:induction false} BiasGateMeans(perSku: seq<Metrics>, rs: seq<Replay>, root: nat -> real, daily: real)
    requires AllShaped(rs) && |rs| > 0 && EvaluableOnly(perSku) == AllMetrics(rs, root)
    ensures var s := Summarize(perSku, daily);
      (s.biasHighVelocity.Some? ==> Abs(s.biasHighVelocity.value) <= BIAS_MAX)
      <==> (HighActual(rs, daily) > 0.0 ==>
              Abs(HighPredicted(rs, daily) - HighActual(rs, daily)) <= BIAS_MAX * HighActual(rs, daily))
  {
    hide Summarize, AllMetrics, Sum, EnsembleApes, V1Apes, DaysCovered, DaysTotal, HighActual, HighPredicted;
    PoolingIsFlattening(perSku, rs, root, daily);
    BiasScalar(Summarize(perSku, daily).biasHighVelocity, HighPredicted(rs, daily), HighActual(rs, daily), BIAS_MAX);
  }

  lemma BiasScalar(bias: Option<real>, p: real, h: real, c: real)
    requires bias.Some? <==> h > 0.0
    requires bias.Some? ==> bias.value == (p - h) / h
    ensures (bias.Some? ==> Abs(bias.value) <= c) <==> (h > 0.0 ==> Abs(p - h) <= c * h)
  {
    hide Abs;
    if h > 0.0 { AtLeastGate(p - h, h, c); }
  }

  lemma {:induction false} CoverageGateMeans(perSku: seq<Metrics>, rs: seq<Replay>, root: nat -> real, daily: real)
    requires AllShaped(rs) && |rs| > 0 && EvaluableOnly(perSku) == AllMetrics(rs, root)
    ensures var s := Summarize(perSku, daily);
      && s.evaluable == |rs|
      && (s.coverage >= COVERAGE_MIN <==> DaysCovered(rs, root) as real >= COVERAGE_MIN * DaysTotal(rs) as real)
  {
    hide Summarize, AllMetrics, Sum, EnsembleApes, V1Apes, DaysCovered, DaysTotal, HighActual, HighPredicted;
    PoolingIsFlattening(perSku, rs, root, daily);
    AtLeastGate(DaysCovered(rs, root) as real, DaysTotal(rs) as real, COVERAGE_MIN);
  }

  lemma RatioField(perSku: seq<Metrics>, daily: real)
    requires |EvaluableOnly(perSku)| > 0
    ensures var s := Summarize(perSku, daily);
      s.ratio == if s.mapeV1 > 0.0 then Some(s.mapeEnsemble / s.mapeV1) else None
  {
  }

  lemma WeightRatio(m: Metrics, c: real)
    requires m.mapeEnsemble <= c * m.mapeV1
    ensures EnsembleWeight(m) <= c * V1Weight(m)
  {
    var d := m.positiveDays as real;
    MulMono(m.mapeEnsemble, c * m.mapeV1, d);
    assert (c * m.mapeV1) * d == c * (m.mapeV1 * d);
  }

  ghost predicate RatioHeld(ms: seq<Metrics>, c: real) {
    forall i :: 0 <= i < |ms| ==> ms[i].mapeEnsemble <= c * ms[i].mapeV1
  }

  lemma {:induction false} WeightsKeepRatio(ms: seq<Metrics>, c: real)
    requires RatioHeld(ms, c)
    ensures Sum(Each(ms, EnsembleWeight)) <= c * Sum(Each(ms, V1Weight))
  {
    var scaled := seq(|ms|, i requires 0 <= i < |ms| => c * Each(ms, V1Weight)[i]);
    forall i | 0 <= i < |ms| ensures Each(ms, EnsembleWeight)[i] <= scaled[i] {
      WeightRatio(ms[i], c);
      assert Each(ms, V1Weight)[i] == V1Weight(ms[i]);
    }
    SumScale(Each(ms, V1Weight), scaled, c);
    SumMono(Each(ms, EnsembleWeight), scaled);
  }

  /** An error-ratio bound that holds for every evaluable SKU holds for the pooled figures. */
  lemma RatioBoundPools(perSku: seq<Metrics>, daily: real, c: real)
    requires RatioHeld(EvaluableOnly(perSku), c)
    ensures Summarize(perSku, daily).mapeEnsemble <= c * Summarize(perSku, daily).mapeV1
  {
    hide Each, Sum, HighVelocity;
    var ev := EvaluableOnly(perSku);
    if |ev| > 0 {
      WeightsKeepRatio(ev, c);
      ScaledQuotient(Sum(Each(ev, EnsembleWeight)), Sum(Each(ev, V1Weight)), OrOne(PositiveDays(ev)) as real, c);
    }
  }

  lemma ScaledQuotient(a: real, b: real, n: real, c: real)
    requires n > 0.0 && a <= c * b
    ensures a / n <= c * (b / n)
  {
    var x, y := a / n, b / n;
    assert x * n == a && y * n == b;
    assert c * y * n == c * b;
    assert x > c * y ==> x * n > c * y * n;
  }
}
