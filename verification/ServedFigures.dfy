/** The daily figures a forecast is served with: demand to two decimals and days of cover
    to one, from an ensemble bundle or from the legacy point forecast. */
module ServedFigures {
  import opened Options
  import opened RealSeq
  import opened Replenishment
  import opened Smoothing
  import M = Models
  import B = RobustSpread
  import C = Calendar
  import E = Ensemble
  import I = Imputation
  import Sc = Scoring

  const LEGACY_ROWS := 90
  const BAND_SHARE := 0.12816  // Z_80 times the sigma floor's share of the mean

  datatype Figures = Figures(predicted: real, p90: Option<real>, days: Option<real>, daysP90: Option<real>)

  // ---- the two engines' figures ----

  function DaysOfCover(stock: int, demand: real): Option<real> {
    if demand <= 0.0 then None
    else var days := Round1(stock as real / demand); if days < 999.0 then Some(days) else None
  }

  // The exponential engine compares with 999 before it rounds.
  function PointCover(stock: int, demand: real): Option<real> {
    if demand <= 0.0 then None
    else var days := stock as real / demand; if days < 999.0 then Some(Round1(days)) else None
  }

  function BandFigures(stock: int, predicted: real, p90: real): Figures {
    Figures(Round2(predicted), Some(Round2(p90)), DaysOfCover(stock, predicted), DaysOfCover(stock, p90))
  }

  function BundleFigures(stock: int, b: E.Bundle): Figures {
    BandFigures(stock, MeanOrZero(b.predictions), MeanOrZero(b.p90))
  }

  function PointFigures(stock: int, predicted: real): Figures {
    Figures(Round2(predicted), None, PointCover(stock, predicted), None)
  }

  /** The values the exponential engine sees: the latest 90 rows. */
  function LegacyValues(rows: seq<C.Row>): (v: seq<real>)
    ensures |v| <= LEGACY_ROWS
  {
    var v := C.Units(C.SortRows(rows));
    if |v| > LEGACY_ROWS then v[|v| - LEGACY_ROWS..] else v
  }

  function LegacyFigures(stock: int, rows: seq<C.Row>): Figures {
    PointFigures(stock, LegacyDaily(LegacyValues(rows)))
  }

  /** The figures a forecast is stored with: demands to the nearest hundredth, days of cover
      from the unrounded demand to the nearest tenth, absent without demand or from 999 days. */
  lemma FiguresAre(stock: int, predicted: real, p90: real)
    ensures var f := BandFigures(stock, predicted, p90);
      && Abs(f.predicted - predicted) <= 0.005 && f.p90.Some? && Abs(f.p90.value - p90) <= 0.005
      && (f.days.Some? <==> predicted > 0.0 && Round1(stock as real / predicted) < 999.0)
      && (f.days.Some? ==> Abs(f.days.value - stock as real / predicted) <= 0.05)
      && (f.daysP90.Some? <==> p90 > 0.0 && Round1(stock as real / p90) < 999.0)
      && (f.daysP90.Some? ==> Abs(f.daysP90.value - stock as real / p90) <= 0.05)
    ensures var f := PointFigures(stock, predicted);
      && Abs(f.predicted - predicted) <= 0.005 && f.p90.None? && f.daysP90.None?
      && (f.days.Some? <==> predicted > 0.0 && stock as real / predicted < 999.0)
      && (f.days.Some? ==> Abs(f.days.value - stock as real / predicted) <= 0.05)
  {
    RoundError(predicted);
    RoundError(p90);
    if predicted > 0.0 { RoundError(stock as real / predicted); }
    if p90 > 0.0 { RoundError(stock as real / p90); }
    hide Round1, Round2;
  }

  /** The exponential engine sees the last ninety rows by day, all of them when there are fewer. */
  lemma LegacyValuesAre(rows: seq<C.Row>, i: nat)
    requires i < |LegacyValues(rows)|
    ensures |LegacyValues(rows)| == if |rows| > 90 then 90 else |rows|
    ensures LegacyValues(rows)[i] == C.SortRows(rows)[|rows| - |LegacyValues(rows)| + i].units && C.Sorted(C.SortRows(rows))
  {
    C.SortSorts(rows);
    hide C.SortRows, C.Sorted;
  }

  // ---- the band keeps the ensemble's p90 away from its mean ----

  // Mean forecast and mean p90 of a bundle that forecasts any demand at all.
  ghost predicate Banded(predicted: real, p90: real) {
    predicted >= 0.0 && (predicted > 0.0 ==> p90 >= predicted + BAND_SHARE * Max(predicted, 1.0))
  }

  lemma {:induction false} UpperBandRaised(path: seq<real>, sigma: real, root: nat -> real, floor: real)
    requires B.IsSquareRoot(root) && |path| > 0 && 0.0 <= floor <= sigma
    ensures Mean(B.UpperBand(path, sigma, root)) >= Mean(path) + B.Z_80 * floor
  {
    hide B.SigmaAt, B.IsSquareRoot, Mean;
    var upper := B.UpperBand(path, sigma, root);
    forall i | 0 <= i < |path| ensures upper[i] >= path[i] + B.Z_80 * floor {
      B.SigmaAtShape(sigma, root, i + 1);
      assert upper[i] == path[i] + B.Z_80 * B.SigmaAt(sigma, root, i + 1);
    }
    MeanRaised(path, upper, B.Z_80 * floor);
  }

  lemma {:induction false} FinishIsBanded(path: seq<real>, sigma: real, root: nat -> real, model: E.Label,
                       wmape: real, bias: real, imputed: nat, holdout: nat)
    requires B.IsSquareRoot(root) && |path| > 0 && (forall i :: 0 <= i < |path| ==> path[i] >= 0.0)
    requires sigma >= E.SigmaFloor(path)
    ensures var b := E.Finish(path, sigma, root, model, wmape, bias, imputed, holdout);
      Banded(MeanOrZero(b.predictions), MeanOrZero(b.p90))
  {
    hide Mean, B.UpperBand, B.LowerBand, B.IsSquareRoot, Round3, Round4;
    UpperBandRaised(path, sigma, root, E.SigmaFloor(path));
    NonnegMean(path);
  }

  lemma NonnegMean(s: seq<real>)
    requires |s| > 0 && forall i :: 0 <= i < |s| ==> s[i] >= 0.0
    ensures Mean(s) >= 0.0
  {
    SumNonneg(s);
    DivBounds(Sum(s), |s| as real, 0.0, Sum(s));
  }

  lemma ZeroMean(n: nat)
    ensures MeanOrZero(Repeat(0.0, n)) == 0.0
  {
    if n > 0 { MeanBounds(Repeat(0.0, n), 0.0, 0.0); }
  }

  /** Every bundle that forecasts some demand puts its mean p90 at least 0.12816 times the
      mean forecast, and at least 0.12816, above the mean forecast. */
  lemma {:induction false} BundleIsBanded(rows: seq<C.Row>, requested: int, external: Option<E.External>, correction: bool, root: nat -> real)
    requires B.IsSquareRoot(root)
    ensures var b := E.Ensemble(rows, requested, external, correction, root);
      Banded(MeanOrZero(b.predictions), MeanOrZero(b.p90))
  {
    hide B.IsSquareRoot, E.Finish, E.SelectedPath, E.DefaultModel, E.SigmaFloor, B.RobustSigma, C.Values, E.Work,
      E.RankedScores, E.AllZeros, MeanOrZero, Banded, M.Predict;
    var horizon := E.ClampHorizon(requested);
    var values := C.Values(rows);
    var work := E.Work(values, correction);
    if |values| == 0 || E.AllZeros(work) {
      ZeroMean(horizon);
      ZeroIsBanded();
    } else {
      var imputed := if E.Corrects(values, correction) then I.CensoredDays(values, |values|) else 0;
      var ranked := E.RankedScores(values, work, external);
      if |ranked| == 0 {
        var m := E.DefaultModel(work);
        var path := Sc.Clipped(M.Predict(m, horizon));
        FinishIsBanded(path, Max(E.SigmaFloor(path), 0.0), root, E.One(M.NameOf(m)), 0.0, 0.0, imputed, 0);
      } else {
        E.RankedUsable(values, work, external);
        E.SelectedPathNonneg(ranked, work, horizon, external);
        var path := E.SelectedPath(ranked, work, horizon, external);
        FinishIsBanded(path, E.SelectedSigma(ranked[0], path), root,
                       if E.Blends(ranked) then E.Two(ranked[0].name, ranked[1].name) else E.One(ranked[0].name),
                       ranked[0].wmape, ranked[0].bias, imputed, E.HoldoutDays(|work|));
      }
    }
  }

  lemma ZeroIsBanded()
    ensures Banded(0.0, 0.0)
  {
  }

  lemma MeanOfOne(x: real)
    ensures MeanOrZero([x]) == x
  {
    assert Sum([x]) == x;
    assert x / 1.0 == x;
  }

  lemma OneSaleSeries(u: real)
    ensures C.Values([C.Row(0, u)]) == [u]
  {
    C.SeriesIsDense([C.Row(0, u)]);
  }

  lemma OneSaleRate(u: real)
    requires u > 0.0
    ensures M.Predict(E.DefaultModel([u]), 1) == [0.9 * u]
  {
    assert E.Intermittent([u]) by { assert |Positives([u])| <= 1; }
    assert CrostonAfter([u], 0).last == -1;
    assert CrostonAfter([u], 1).rate == SbaRate(u, 1.0);
  }

  /** The bundle of a single sale, one day ahead: nine tenths of it, and the narrowest band there is. */
  lemma {:induction false} OneSaleBundle(u: real, root: nat -> real)
    requires u >= 2.0 && B.IsSquareRoot(root)
    ensures var b := E.Ensemble([C.Row(0, u)], 1, None, false, root);
      b.predictions == [0.9 * u] && b.p90 == [0.9 * u + BAND_SHARE * (0.9 * u)]
  {
    OneSaleSeries(u);
    OneSaleRate(u);
    MeanOfOne(0.9 * u);
    B.SigmaAtShape(0.09 * u, root, 1);
    hide B.IsSquareRoot, B.SigmaAt, C.Values, E.DefaultModel, M.Predict, Mean, E.WeeklyStrength, E.Candidates, Round3, Round4;
    assert E.HoldoutDays(1) == 0;
    assert E.RankedScores([u], [u], None) == [];
    assert Sc.Clipped([0.9 * u]) == [0.9 * u];
    assert E.SigmaFloor([0.9 * u]) == 0.09 * u;
  }

  // ---- whole units keep the legacy forecast away from zero ----

  // Sales are counted in whole units.
  ghost predicate WholeUnits(rows: seq<C.Row>) {
    forall i :: 0 <= i < |rows| ==> rows[i].units >= 0.0 && rows[i].units == rows[i].units.Floor as real
  }

  ghost predicate WholeValues(values: seq<real>) {
    forall i :: 0 <= i < |values| ==> values[i] >= 0.0 && values[i] == values[i].Floor as real
  }

  lemma {:induction false} SortedRowsWhole(rows: seq<C.Row>)
    requires WholeUnits(rows)
    ensures WholeUnits(C.SortRows(rows))
  {
    if |rows| > 0 {
      var n := |rows| - 1;
      SortedRowsWhole(rows[..n]);
      var s, t := C.SortRows(rows[..n]), C.SortRows(rows);
      forall i | 0 <= i < |t| ensures t[i].units >= 0.0 && t[i].units == t[i].units.Floor as real {
        C.InsertMembers(s, rows[n], t[i]);
      }
    }
  }

  lemma {:induction false} SumOfWhole(values: seq<real>)
    requires WholeValues(values)
    ensures (Sum(values) == 0.0 && forall i :: 0 <= i < |values| ==> values[i] == 0.0) || Sum(values) >= 1.0
  {
    if |values| > 0 {
      var n := |values| - 1;
      SumOfWhole(values[..n]);
      SumNonneg(values[..n]);
    }
  }

  /** From whole-unit sales the exponential engine forecasts nothing at all or at least 1/180 a day. */
  lemma LegacyIsNotTiny(rows: seq<C.Row>)
    requires WholeUnits(rows)
    ensures var d := LegacyDaily(LegacyValues(rows)); d == 0.0 || d >= 1.0 / 180.0
  {
    var values := LegacyValues(rows);
    SortedRowsWhole(rows);
    assert WholeValues(values);
    if |values| > 0 {
      SumOfWhole(values);
      if Sum(values) >= 1.0 {
        HalfMean(values);
      } else {
        LegacyBetween(values, 0.0);
      }
    }
  }

  lemma HalfMean(values: seq<real>)
    requires 0 < |values| <= LEGACY_ROWS && Sum(values) >= 1.0
    ensures LegacyDaily(values) >= 1.0 / 180.0
  {
    var n := |values| as real;
    var m := Sum(values) / n;
    assert m * n == Sum(values);
    assert m < 1.0 / 90.0 ==> m * n < 1.0;
  }

  // ---- histories with known legacy forecasts ----

  /** A history with one row a day. */
  function History(values: seq<real>): (rows: seq<C.Row>)
    ensures |rows| == |values|
  {
    seq(|values|, i requires 0 <= i < |values| => C.Row(i, values[i]))
  }

  lemma HistoryValues(values: seq<real>)
    requires |values| <= LEGACY_ROWS
    ensures LegacyValues(History(values)) == values
    ensures WholeValues(values) ==> WholeUnits(History(values))
  {
    C.SortedStays(History(values));
    assert C.Units(History(values)) == values;
  }

  /** Days without a sale fade the smoothed value by 0.7 each. */
  lemma {:induction false} SmoothedFades(values: seq<real>, k: nat)
    requires |values| > 0
    ensures Smoothed(values + Repeat(0.0, k), LEGACY_ALPHA) == M.Pow(0.7, k) * Smoothed(values, LEGACY_ALPHA)
  {
    var longer := values + Repeat(0.0, k);
    if k == 0 {
      assert longer == values;
    } else {
      SmoothedFades(values, k - 1);
      assert longer[..|longer| - 1] == values + Repeat(0.0, k - 1);
    }
  }

  lemma {:induction false} FadesBelowMean(k: nat)
    requires k >= 9
    ensures 0.0 <= M.Pow(0.7, k) && M.Pow(0.7, k) * (2 * (k + 1)) as real <= 1.0
  {
    if k == 9 {
      assert M.Pow(0.7, 3) == 0.343;
      assert M.Pow(0.7, 6) == 0.117649;
      assert M.Pow(0.7, 9) == 0.040353607;
    } else {
      FadesBelowMean(k - 1);
      var w := M.Pow(0.7, k - 1);
      assert w * (2 * k) as real <= 1.0;
      assert (2 * (k + 1)) as real == (2 * k) as real + 2.0;
      assert M.Pow(0.7, k) * (2 * (k + 1)) as real == 0.7 * (w * (2 * k) as real) + 1.4 * w;
      assert w * 18.0 <= w * (2 * k) as real;
    }
  }

  lemma SumOfOneSale(a: real, k: nat)
    ensures Sum([a] + Repeat(0.0, k)) == a
  {
    SumConcat([a], Repeat(0.0, k));
    SumBounds(Repeat(0.0, k), 0.0, 0.0);
    assert [a][..0] == [];
  }

  lemma HalfOf(a: real, n: real)
    requires n > 0.0
    ensures a / n * 0.5 == a / (2.0 * n)
  {
    assert a / n * 0.5 * (2.0 * n) == a;
  }

  lemma FadedIsLess(w: real, a: real, n: real)
    requires a > 0.0 && n > 0.0 && w * n <= 1.0
    ensures w * a <= a / n
  {
    var q := a / n;
    assert q * n == a;
    assert (w * n) * a <= a;
    assert (w * a) * n == (w * n) * a;
  }

  // One sale long enough ago: the forecast is half the mean.
  lemma OneOldSale(a: real, k: nat)
    requires a > 0.0 && k >= 9
    ensures LegacyDaily([a] + Repeat(0.0, k)) == a / (2 * (k + 1)) as real
  {
    SmoothedFades([a], k);
    FadesBelowMean(k);
    SumOfOneSale(a, k);
    HalfOf(a, (k + 1) as real);
    FadedIsLess(M.Pow(0.7, k), a, (2 * (k + 1)) as real);
    assert Smoothed([a], LEGACY_ALPHA) == a;
    assert (2 * (k + 1)) as real == 2.0 * (k + 1) as real;
    hide Smoothed, M.Pow, Sum, Repeat;
  }
}
