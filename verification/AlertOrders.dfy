/** From the served figures of a forecast to its alert and its order: with rounded demand
    and rounded days of cover, which alerts are certain to place an order. */
module AlertOrders {
  import opened Options
  import opened RealSeq
  import opened Replenishment
  import opened ServedFigures
  import L = Smoothing
  import M = Models
  import B = RobustSpread
  import C = Calendar
  import E = Ensemble

  function AlertLevel(f: Figures, lead: int): Level {
    RiskLevel(f.days, lead, f.daysP90)
  }

  // The demand an order is computed from.
  function Basis(f: Figures): real {
    PlanningDemand(f.predicted, f.p90)
  }

  function OrderFor(f: Figures, stock: int, lead: int, moq: int): int {
    ReorderQuantity(Basis(f), stock, lead, moq, 0)
  }

  // The largest days of cover, as reported, at which a level is raised, and that figure
  // plus the rounding of a cover, in twentieths of a day.
  function Limit(l: Level, lead: int): real {
    if l == Critical then lead as real else lead as real * RISK_BUFFER
  }

  function Twentieths(l: Level, lead: int): int {
    (if l == Critical then 20 * lead else 30 * lead) + 1
  }

  // ---- in whole hundredths and whole units ----

  // Whole units on hand that an alert's rounded cover allows fall short of the window.
  lemma CriticalCents(lead: int, c: int, stock: int)
    requires 0 <= lead <= 39 && c >= 1 && 4000 * stock <= (20 * lead + 1) * (2 * c + 1)
    ensures 100 * stock < c * (lead + SAFETY_BUFFER_DAYS)
  {
    var p := c * lead;
    assert (20 * lead + 1) * (2 * c + 1) == 40 * p + 20 * lead + 2 * c + 1;
    assert c * (lead + SAFETY_BUFFER_DAYS) == p + 7 * c;
    assert p >= 0;
    assert c <= 2 || 20 * lead + 1 < 278 * c;
    if c <= 2 { assert p <= 2 * lead; }
  }

  lemma WarningCents(lead: int, c: int, stock: int)
    requires 0 <= lead <= 12 && c >= 1 && 4000 * stock <= (30 * lead + 1) * (2 * c + 1)
    ensures 100 * stock < c * (lead + SAFETY_BUFFER_DAYS)
  {
    if lead <= 11 {
      WarningCentsShort(lead, c, stock);
    }
  }

  lemma WarningCentsShort(lead: int, c: int, stock: int)
    requires 0 <= lead <= 11 && c >= 1 && 4000 * stock <= (30 * lead + 1) * (2 * c + 1)
    ensures 100 * stock < c * (lead + SAFETY_BUFFER_DAYS)
  {
    var p := c * lead;
    assert p <= 11 * c && p >= 0;
    assert (30 * lead + 1) * (2 * c + 1) == 60 * p + 30 * lead + 2 * c + 1;
    assert c * (lead + SAFETY_BUFFER_DAYS) == p + 7 * c;
    if c <= 5 {
      assert p <= 5 * lead;
    }
  }

  // Cover of at most `limit` tenths-rounded days, in whole numbers.
  lemma StockInCents(stock: int, d: real, c: int, twentieths: int)
    requires d > 0.0 && c >= 1 && d <= c as real / 100.0 + 0.005 && twentieths >= 0
    requires stock as real / d <= twentieths as real / 20.0
    ensures 4000 * stock <= twentieths * (2 * c + 1)
  {
    var t := twentieths as real / 20.0;
    CoverBound(stock, d, t);
    MulMono(d, c as real / 100.0 + 0.005, t);
    assert stock as real <= (c as real / 100.0 + 0.005) * t;
    var a, b := c as real, twentieths as real;
    assert (a / 100.0 + 0.005) * (b / 20.0) * 4000.0 == b * (2.0 * a + 1.0);
    assert (twentieths * (2 * c + 1)) as real == b * (2.0 * a + 1.0);
    assert (4000 * stock) as real <= (twentieths * (2 * c + 1)) as real;
  }

  lemma WholeShort(stock: int, c: int, lead: int)
    requires 100 * stock < c * (lead + SAFETY_BUFFER_DAYS)
    ensures stock as real < Required(c as real / 100.0, lead)
  {
    assert (c * (lead + SAFETY_BUFFER_DAYS)) as real == c as real * (lead + SAFETY_BUFFER_DAYS) as real;
    assert c as real / 100.0 * (lead + SAFETY_BUFFER_DAYS) as real * 100.0 == c as real * (lead + SAFETY_BUFFER_DAYS) as real;
  }

  // A demand in hundredths, to the nearest one.
  function Cents(d: real): int {
    RoundHalfEven(d * 100.0)
  }

  lemma CentsAre(d: real)
    ensures Round2(d) == Cents(d) as real / 100.0
    ensures d <= Cents(d) as real / 100.0 + 0.005
    ensures d >= 0.0056 && d < 0.12816 ==> Cents(d) >= 1
    ensures d >= 0.12816 ==> Cents(d) >= 13
  {
  }

  lemma CoverInCents(stock: int, d: real, l: Level, lead: int)
    requires d > 0.0 && Cents(d) >= 1 && lead >= 0 && stock as real / d <= Limit(l, lead) + 0.05
    ensures 4000 * stock <= Twentieths(l, lead) * (2 * Cents(d) + 1)
  {
    CentsAre(d);
    hide Cents;
    assert Limit(l, lead) + 0.05 == Twentieths(l, lead) as real / 20.0;
    StockInCents(stock, d, Cents(d), Twentieths(l, lead));
  }

  // Cover of at most the limit, lead within the bound that needs nothing else: stock is short.
  lemma ShortOfWindow(stock: int, d: real, l: Level, lead: int)
    requires d > 0.0 && Cents(d) >= 1 && lead >= 0 && stock as real / d <= Limit(l, lead) + 0.05
    requires (l == Critical && lead <= 39) || (l == Warning && lead <= 12)
    ensures stock as real < Required(Round2(d), lead)
  {
    CentsAre(d);
    CoverInCents(stock, d, l, lead);
    hide Cents, Required, Round2;
    if l == Critical { CriticalCents(lead, Cents(d), stock); } else { WarningCents(lead, Cents(d), stock); }
    WholeShort(stock, Cents(d), lead);
  }

  lemma ReportedCover(q: real, limit: real)
    requires Round1(q) <= limit
    ensures q <= limit + 0.05
  {
    RoundError(q);
  }

  // ---- the exponential engine ----

  lemma PointAlert(stock: int, d: real, lead: int)
    requires AlertLevel(PointFigures(stock, d), lead) != Safe
    ensures d > 0.0 && stock as real / d <= Limit(AlertLevel(PointFigures(stock, d), lead), lead) + 0.05
  {
    ReportedCover(stock as real / d, Limit(AlertLevel(PointFigures(stock, d), lead), lead));
  }

  // The longest lead time at which every alert of a level is certain to order.
  function PointLead(l: Level): int {
    match l case Critical => 39 case Warning => 12 case Safe => -1
  }

  /** On the exponential engine every alert has a positive demand basis, and with nothing on
      order it places one exactly when its lead time is at most 39 days (critical) or 12
      days (warning), or stock is short of the planning window. */
  lemma {:induction false} LegacyAlertOrders(stock: int, rows: seq<C.Row>, lead: int, moq: int)
    requires lead >= 0 && WholeUnits(rows) && AlertLevel(LegacyFigures(stock, rows), lead) != Safe
    ensures var f := LegacyFigures(stock, rows);
      && Basis(f) >= 0.01
      && (OrderFor(f, stock, lead, moq) > 0 <==>
            lead <= PointLead(AlertLevel(f, lead)) || stock as real < Required(Basis(f), lead))
  {
    hide Required, RiskLevel, PointCover, LegacyValues, L.LegacyDaily, ReorderQuantity, Round2;
    LegacyIsNotTiny(rows);
    var d := L.LegacyDaily(LegacyValues(rows));
    var f := LegacyFigures(stock, rows);
    PointAlert(stock, d, lead);
    CentsAre(d);
    PositiveIffShort(Basis(f), stock, lead, moq, 0);
    if lead <= PointLead(AlertLevel(f, lead)) { ShortOfWindow(stock, d, AlertLevel(f, lead), lead); }
  }

  // ---- the ensemble engine ----

  lemma CapInCents(stock: int, predicted: real, p90: real)
    requires predicted > 0.0 && Banded(predicted, p90) && stock as real / predicted <= 998.95
    ensures 2000 * stock <= 19979 * Cents(p90) - 246061
  {
    CoverBound(stock, predicted, 998.95);
    CentsAre(p90);
    hide Cents;
  }

  lemma {:induction false} BandCritical(lead: int, c: int, stock: int)
    requires 0 <= lead <= 239 && 4000 * stock <= (20 * lead + 1) * (2 * c + 1) && c >= 13
    requires 2000 * stock <= 19979 * c - 246061
    ensures 100 * stock < c * (lead + SAFETY_BUFFER_DAYS)
  {
    var p := c * lead;
    assert (20 * lead + 1) * (2 * c + 1) == 40 * p + 20 * lead + 2 * c + 1;
    assert c * (lead + SAFETY_BUFFER_DAYS) == p + 7 * c;
    assert c == 13 ==> p == 13 * lead;
    assert c == 14 ==> p == 14 * lead;
    assert c == 15 ==> p == 15 * lead;
    assert c == 16 ==> p == 16 * lead;
    assert c == 17 ==> p == 17 * lead;
  }

  lemma BandBasis(stock: int, predicted: real, p90: real)
    requires predicted > 0.0 && Banded(predicted, p90)
    ensures Basis(BandFigures(stock, predicted, p90)) == Round2(p90) >= 0.13
    ensures p90 > predicted && p90 >= 0.12816
  {
    hide Round1, DaysOfCover;
    CentsAre(p90);
    RoundMono(predicted, p90);
  }

  // What an alert says about the covers behind it.
  lemma {:induction false} BandAlert(stock: int, predicted: real, p90: real, lead: int)
    requires Banded(predicted, p90) && AlertLevel(BandFigures(stock, predicted, p90), lead) != Safe
    ensures predicted > 0.0 && stock as real / predicted <= 998.95
    ensures stock >= 0 ==> stock as real / p90 <= Limit(AlertLevel(BandFigures(stock, predicted, p90), lead), lead) + 0.05
  {
    var f := BandFigures(stock, predicted, p90);
    var l := AlertLevel(f, lead);
    assert predicted > 0.0 && p90 >= predicted;
    ReportedBelowCap(stock as real / predicted);
    if stock >= 0 {
      LessCover(stock, predicted, p90);
      if l == Classify(f.days.value, lead) {
        ReportedCover(stock as real / predicted, Limit(l, lead));
      } else {
        ReportedCover(stock as real / p90, Limit(l, lead));
      }
    }
  }

  lemma ReportedBelowCap(q: real)
    requires Round1(q) < 999.0
    ensures q <= 998.95
  {
    assert RoundHalfEven(q * 10.0) <= 9989;
  }

  lemma LessCover(stock: int, d: real, e: real)
    requires 0.0 < d <= e && stock >= 0
    ensures stock as real / e <= stock as real / d
  {
    var q, r := stock as real / d, stock as real / e;
    assert q * d == stock as real && r * e == stock as real;
    assert r > q ==> r * e > q * e;
    assert q * e >= q * d;
  }

  function BandLead(l: Level): int {
    match l case Critical => 239 case Warning => 12 case Safe => -1
  }

  /** With banded figures every alert has a basis of at least 0.13, and with nothing on order
      it places one exactly when its lead time is at most 239 days (critical) or 12 days
      (warning), or stock is short of the planning window. */
  lemma {:induction false} BandAlertOrders(stock: int, predicted: real, p90: real, lead: int, moq: int)
    requires lead >= 0 && Banded(predicted, p90) && AlertLevel(BandFigures(stock, predicted, p90), lead) != Safe
    ensures var f := BandFigures(stock, predicted, p90);
      && Basis(f) >= 0.13
      && (OrderFor(f, stock, lead, moq) > 0 <==>
            lead <= BandLead(AlertLevel(f, lead)) || stock as real < Required(Basis(f), lead))
  {
    hide Required, AlertLevel, Basis, Round2, BandFigures, ReorderQuantity, Banded, Cents;
    var f := BandFigures(stock, predicted, p90);
    BandAlert(stock, predicted, p90, lead);
    BandBasis(stock, predicted, p90);
    PositiveIffShort(Basis(f), stock, lead, moq, 0);
    if lead <= BandLead(AlertLevel(f, lead)) {
      CentsAre(p90);
      CapInCents(stock, predicted, p90);
      if stock < 0 {
        NegativeIsShort(stock, Basis(f), lead);
      } else {
        CoverInCents(stock, p90, AlertLevel(f, lead), lead);
        BandIsShort(stock, Cents(p90), lead, AlertLevel(f, lead));
      }
    }
  }

  lemma {:induction false} BandIsShort(stock: int, c: int, lead: int, l: Level)
    requires 0 <= lead <= BandLead(l) && c >= 13 && 2000 * stock <= 19979 * c - 246061
    requires 4000 * stock <= Twentieths(l, lead) * (2 * c + 1)
    ensures stock as real < Required(c as real / 100.0, lead)
  {
    hide Required;
    if l == Warning { WarningCents(lead, c, stock); } else { BandCritical(lead, c, stock); }
    WholeShort(stock, c, lead);
  }

  lemma NegativeIsShort(stock: int, basis: real, lead: int)
    requires stock < 0 && basis > 0.0 && lead >= 0
    ensures stock as real < Required(basis, lead)
  {
    StrictProd(basis, (lead + SAFETY_BUFFER_DAYS) as real);
  }

  /** The same for every ensemble forecast, whatever its history, horizon and candidates. */
  lemma {:induction false} EnsembleAlertOrders(stock: int, rows: seq<C.Row>, requested: int, external: Option<E.External>, correction: bool,
                            root: nat -> real, lead: int, moq: int)
    requires B.IsSquareRoot(root) && lead >= 0
    requires AlertLevel(BundleFigures(stock, E.Ensemble(rows, requested, external, correction, root)), lead) != Safe
    ensures var f := BundleFigures(stock, E.Ensemble(rows, requested, external, correction, root));
      && Basis(f) >= 0.13
      && (OrderFor(f, stock, lead, moq) > 0 <==>
            lead <= BandLead(AlertLevel(f, lead)) || stock as real < Required(Basis(f), lead))
  {
    hide AlertLevel, Basis, BandFigures, B.IsSquareRoot, Banded, E.Ensemble, MeanOrZero, OrderFor, Required;
    BundleIsBanded(rows, requested, external, correction, root);
    var b := E.Ensemble(rows, requested, external, correction, root);
    BandAlertOrders(stock, MeanOrZero(b.predictions), MeanOrZero(b.p90), lead, moq);
  }

  // Figures the ensemble or the exponential engine can serve for some history.
  ghost predicate Served(f: Figures, stock: int) {
    || (exists predicted, p90 :: Banded(predicted, p90) && f == BandFigures(stock, predicted, p90))
    || (exists rows :: WholeUnits(rows) && f == LegacyFigures(stock, rows))
  }

  /** From the served figures to the table: an alert within those lead times, for a SKU with
      nothing on order, gets a pending order in the same run. */
  lemma {:induction false} CertainAlertIsDrafted(alerts: seq<int>, skus: map<int, Sku>, forecasts: map<int, Forecast>,
                                                rows: seq<Order>, now: int, i: nat, f: Figures)
    requires i < |alerts| && Known(alerts[i], skus, forecasts) && forecasts[alerts[i]] == Forecast(f.predicted, f.p90)
    requires OnOrder(rows, alerts[i], now) == 0 && !RecentlyPending(rows, alerts[i], now)
    requires var s := skus[alerts[i]]; Served(f, s.stock) && s.lead >= 0 && AlertLevel(f, s.lead) != Safe
    requires var s := skus[alerts[i]];
      s.lead <= if f.p90.Some? then BandLead(AlertLevel(f, s.lead)) else PointLead(AlertLevel(f, s.lead))
    ensures HasNewOrder(Drafted(alerts, skus, forecasts, rows, now), alerts[i], now)
  {
    hide AlertLevel, ReorderQuantity, OnOrder, RecentlyPending, Drafted, HasNewOrder, WholeUnits, Banded, LegacyValues,
      Round2, DaysOfCover, PointCover;
    var s := skus[alerts[i]];
    if predicted, p90 :| Banded(predicted, p90) && f == BandFigures(s.stock, predicted, p90) {
      BandAlertOrders(s.stock, predicted, p90, s.lead, s.moq);
    } else {
      var history :| WholeUnits(history) && f == LegacyFigures(s.stock, history);
      LegacyAlertOrders(s.stock, history, s.lead, s.moq);
    }
    PositiveIsDrafted(alerts, skus, forecasts, rows, now, i);
  }

  // ---- exactly which lead times are safe for warnings ----

  lemma WholeRounds(x: real, n: int)
    requires x == n as real
    ensures RoundHalfEven(x) == n
  {
  }

  lemma {:induction false} WholeTenth(n: int)
    ensures Round1(n as real) == n as real
    ensures Round1(n as real + 0.5) == n as real + 0.5
    ensures Round2(n as real) == n as real
  {
    hide RoundHalfEven;
    WholeRounds((n as real + 0.5) * 10.0, 10 * n + 5);
    WholeRounds(n as real * 10.0, 10 * n);
    WholeRounds(n as real * 100.0, 100 * n);
  }

  ghost predicate LegacyWarningsOrder(lead: int) {
    forall stock, rows, moq :: WholeUnits(rows) && AlertLevel(LegacyFigures(stock, rows), lead) == Warning ==>
      OrderFor(LegacyFigures(stock, rows), stock, lead, moq) > 0
  }

  // A warning about stock that already covers the rounded plan.
  ghost predicate WarnedButCovered(f: Figures, stock: int, lead: int) {
    AlertLevel(f, lead) == Warning && OrderFor(f, stock, lead, 1) == 0
  }

  // Two units sold on the first of 19 days: a nineteenth a day, stored as 0.05.
  lemma WarnedAtThirteen(d: real)
    requires d == 1.0 / 19.0
    ensures WarnedButCovered(PointFigures(1, d), 1, 13)
  {
    assert 1.0 / d == 19.0;
    assert Round2(d) == 0.05;
    WholeTenth(19);
  }

  lemma WarnedBelowCap(lead: int)
    requires 14 <= lead <= 991
    ensures WarnedButCovered(PointFigures(10 * (lead + 7), 10.0), 10 * (lead + 7), lead)
  {
    WholeTenth(lead + 7);
    WholeTenth(10);
    hide Round1, Round2;
    assert (10 * (lead + 7)) as real / 10.0 == (lead + 7) as real;
  }

  // Five units sold on the first of 78 days, stored as 0.03: 32 units last 998.4 days.
  lemma WarnedAtCap(lead: int, d: real)
    requires 992 <= lead <= 998 && d == 5.0 / 156.0
    ensures WarnedButCovered(PointFigures(32, d), 32, lead)
  {
    assert 32.0 / d == 998.4;
    assert Round1(998.4) == 998.4;
    assert Round2(d) == 0.03;
    hide Round1, Round2;
  }

  lemma {:induction false} LegacyWarningMayNotOrder(lead: int) returns (stock: int, rows: seq<C.Row>)
    requires 13 <= lead <= 998
    ensures WholeUnits(rows) && WarnedButCovered(LegacyFigures(stock, rows), stock, lead)
  {
    hide WarnedButCovered, LegacyValues, L.LegacyDaily;
    if lead == 13 {
      stock, rows := 1, History([2.0] + Repeat(0.0, 18));
      HistoryValues([2.0] + Repeat(0.0, 18));
      OneOldSale(2.0, 18);
      WarnedAtThirteen(2.0 / 38.0);
    } else if lead <= 991 {
      stock, rows := 10 * (lead + 7), History([10.0]);
      HistoryValues([10.0]);
      SteadyTen();
      WarnedBelowCap(lead);
    } else {
      stock, rows := 32, History([5.0] + Repeat(0.0, 77));
      HistoryValues([5.0] + Repeat(0.0, 77));
      OneOldSale(5.0, 77);
      WarnedAtCap(lead, 5.0 / 156.0);
    }
  }

  lemma SteadyTen()
    ensures L.LegacyDaily([10.0]) == 10.0
  {
    assert [10.0][..0] == [];
  }

  lemma NoWarningPastCap(stock: int, d: real, lead: int)
    requires lead >= 999
    ensures AlertLevel(PointFigures(stock, d), lead) != Warning
  {
    if PointCover(stock, d).Some? {
      RoundMono(stock as real / d, 999.0);
      WholeTenth(999);
    }
  }

  /** On the exponential engine every warning places an order exactly when the lead time is
      at most 12 days, or so long that a cover beyond it is not reported. */
  lemma LegacyWarningsOrderExactly(lead: int)
    requires lead >= 0
    ensures LegacyWarningsOrder(lead) <==> lead <= 12 || lead >= 999
  {
    hide AlertLevel, Basis, ReorderQuantity, LegacyValues, L.LegacyDaily, PointFigures;
    if lead <= 12 {
      forall stock, rows, moq | WholeUnits(rows) && AlertLevel(LegacyFigures(stock, rows), lead) == Warning
        ensures OrderFor(LegacyFigures(stock, rows), stock, lead, moq) > 0 {
        LegacyAlertOrders(stock, rows, lead, moq);
      }
    } else if lead >= 999 {
      forall stock, rows: seq<C.Row> ensures AlertLevel(LegacyFigures(stock, rows), lead) != Warning {
        NoWarningPastCap(stock, L.LegacyDaily(LegacyValues(rows)), lead);
      }
    } else {
      var stock, rows := LegacyWarningMayNotOrder(lead);
      assert !(OrderFor(LegacyFigures(stock, rows), stock, lead, 1) > 0);
    }
  }

  ghost predicate BandWarningsOrder(lead: int) {
    forall stock, predicted, p90, moq ::
      Banded(predicted, p90) && AlertLevel(BandFigures(stock, predicted, p90), lead) == Warning ==>
        OrderFor(BandFigures(stock, predicted, p90), stock, lead, moq) > 0
  }

  lemma BandWarnedAtThirteen()
    ensures Banded(0.02, 0.154) && WarnedButCovered(BandFigures(3, 0.02, 0.154), 3, 13)
  {
    assert 19.48 < 3.0 / 0.154 < 19.49;
    assert Round1(3.0 / 0.154) == 19.5;
    assert 3.0 / 0.02 == 150.0;
    WholeTenth(150);
    assert Round2(0.154) == 0.15 && Round2(0.02) == 0.02;
  }

  /** Such figures occur: one sale of 62,500 units, forecast one day ahead, is served as
      56,250 a day with a p90 of 63,459, and at every lead time from 14 to 878 days some
      stock raises a warning that orders nothing. */
  lemma {:induction false} EnsembleWarningMayNotOrder(lead: int, root: nat -> real)
    requires 14 <= lead <= 878 && B.IsSquareRoot(root)
    ensures WarnedButCovered(
      BundleFigures(63459 * (lead + 7), E.Ensemble([C.Row(0, 62500.0)], 1, None, false, root)), 63459 * (lead + 7), lead)
  {
    hide B.IsSquareRoot, E.Ensemble, WarnedButCovered;
    OneSaleBundle(62500.0, root);
    var b := E.Ensemble([C.Row(0, 62500.0)], 1, None, false, root);
    MeanOfOne(56250.0);
    MeanOfOne(63459.0);
    OneSaleWarned(lead);
  }

  lemma OneSaleWarned(lead: int)
    requires 14 <= lead <= 878
    ensures WarnedButCovered(BandFigures(63459 * (lead + 7), 56250.0, 63459.0), 63459 * (lead + 7), lead)
  {
    var stock := 63459 * (lead + 7);
    assert stock as real / 63459.0 == (lead + 7) as real;
    assert stock as real / 56250.0 == 1.12816 * (lead + 7) as real;
    WholeTenth(lead + 7);
    WholeTenth(56250);
    WholeTenth(63459);
    RoundError(stock as real / 56250.0);
    hide Round1, Round2;
  }

  lemma OneSaleBanded()
    ensures Banded(56250.0, 63459.0)
  {
  }

  lemma BandWarnedLate(lead: int)
    requires 879 <= lead <= 882
    ensures Banded(1.00606, 1.134998) && WarnedButCovered(BandFigures(1005, 1.00606, 1.134998), 1005, lead)
  {
    assert 998.94 < 1005.0 / 1.00606 < 998.947;
    assert Round1(1005.0 / 1.00606) == 998.9;
    assert 885.46 < 1005.0 / 1.134998 < 885.47;
    assert Round1(1005.0 / 1.134998) == 885.5;
    assert Round2(1.00606) == 1.01 && Round2(1.134998) == 1.13;
    hide Round1, Round2;
  }

  lemma LongLeadScalar(stock: real, predicted: real, p90: real, basis: real)
    requires predicted > 0.0 && stock <= 998.95 * predicted && basis >= p90 - 0.005
    requires p90 >= predicted + BAND_SHARE * Max(predicted, 1.0)
    ensures basis > 0.0 && stock < 890.0 * basis
  {
  }

  // Past 882 days the reported cover is too short of the window for any banded alert.
  lemma LongLeadIsShort(stock: int, predicted: real, p90: real, lead: int)
    requires predicted > 0.0 && Banded(predicted, p90) && stock as real / predicted <= 998.95 && lead >= 883
    ensures stock as real < Required(Round2(p90), lead)
  {
    CoverBound(stock, predicted, 998.95);
    RoundError(p90);
    LongLeadScalar(stock as real, predicted, p90, Round2(p90));
    hide Round2, Banded, Required;
    WindowAtLeast(Round2(p90), lead);
  }

  lemma WindowAtLeast(basis: real, lead: int)
    requires basis > 0.0 && lead >= 883
    ensures Required(basis, lead) >= 890.0 * basis
  {
    MulMono(890.0, (lead + SAFETY_BUFFER_DAYS) as real, basis);
  }

  /** With banded figures every warning places an order exactly when the lead time is at
      most 12 days or at least 883. */
  lemma BandWarningsOrderExactly(lead: int)
    requires lead >= 0
    ensures BandWarningsOrder(lead) <==> lead <= 12 || lead >= 883
  {
    hide AlertLevel, Basis, ReorderQuantity, BandFigures, Banded, Required;
    if lead <= 12 || lead >= 883 {
      forall stock, predicted, p90, moq |
          Banded(predicted, p90) && AlertLevel(BandFigures(stock, predicted, p90), lead) == Warning
        ensures OrderFor(BandFigures(stock, predicted, p90), stock, lead, moq) > 0 {
        BandAlertOrders(stock, predicted, p90, lead, moq);
        BandAlert(stock, predicted, p90, lead);
        BandBasis(stock, predicted, p90);
        if lead >= 883 { LongLeadIsShort(stock, predicted, p90, lead); }
      }
    } else if lead == 13 {
      BandWarnedAtThirteen();
      assert !(OrderFor(BandFigures(3, 0.02, 0.154), 3, lead, 1) > 0);
    } else if lead <= 878 {
      OneSaleWarned(lead);
      OneSaleBanded();
      assert !(OrderFor(BandFigures(63459 * (lead + 7), 56250.0, 63459.0), 63459 * (lead + 7), lead, 1) > 0);
    } else {
      BandWarnedLate(lead);
      assert !(OrderFor(BandFigures(1005, 1.00606, 1.134998), 1005, lead, 1) > 0);
    }
  }

  // ---- the bounds for critical alerts are sharp ----

  /** At 240 days a critical alert on banded figures can order nothing. */
  lemma BandCriticalMayNotOrder()
    ensures Banded(0.0421, 0.17498)
    ensures AlertLevel(BandFigures(42, 0.0421, 0.17498), 240) == Critical
    ensures OrderFor(BandFigures(42, 0.0421, 0.17498), 42, 240, 1) == 0
  {
    assert 240.02 < 42.0 / 0.17498 < 240.03;
    assert Round1(42.0 / 0.17498) == 240.0;
    assert 997.6 < 42.0 / 0.0421 < 997.63;
    assert Round1(42.0 / 0.0421) == 997.6;
    assert Round2(0.17498) == 0.17 && Round2(0.0421) == 0.04;
    hide Round1, Round2;
  }

  // Three sales of one unit, 25, 20 and 7 days before the last of 61 days.
  function ThreeSales(): seq<real> {
    Repeat(0.0, 35) + [1.0] + Repeat(0.0, 4) + [1.0] + Repeat(0.0, 12) + [1.0] + Repeat(0.0, 7)
  }

  /** At 40 days a critical alert of the exponential engine can order nothing: three sales in
      61 days are forecast just below 0.025 a day, which is stored as 0.02. */
  lemma {:induction false} LegacyCriticalMayNotOrder()
    ensures WholeUnits(History(ThreeSales()))
    ensures AlertLevel(LegacyFigures(1, History(ThreeSales())), 40) == Critical
    ensures OrderFor(LegacyFigures(1, History(ThreeSales())), 1, 40, 1) == 0
  {
    hide LegacyValues, L.LegacyDaily, ThreeSales, AlertLevel, OrderFor;
    ThreeSalesForecast();
    HistoryValues(ThreeSales());
    CriticalAtForty(L.LegacyDaily(ThreeSales()));
  }

  lemma CriticalAtForty(d: real)
    requires 0.02498 < d < 0.02499
    ensures AlertLevel(PointFigures(1, d), 40) == Critical && OrderFor(PointFigures(1, d), 1, 40, 1) == 0
  {
    var q := 1.0 / d;
    assert q * d == 1.0;
    assert 40.01 < q < 40.04;
    assert Round1(q) == 40.0;
    assert Round2(d) == 0.02;
    hide Round1, Round2;
  }

  lemma SmoothedPush(values: seq<real>, x: real)
    requires |values| > 0
    ensures L.Smoothed(values + [x], L.LEGACY_ALPHA) == 0.3 * x + 0.7 * L.Smoothed(values, L.LEGACY_ALPHA)
  {
    assert (values + [x])[..|values|] == values;
  }

  lemma {:induction false} SaleAfter(values: seq<real>, k: nat)
    requires |values| > 0
    ensures L.Smoothed(values + [1.0] + Repeat(0.0, k), L.LEGACY_ALPHA)
         == M.Pow(0.7, k) * (0.3 + 0.7 * L.Smoothed(values, L.LEGACY_ALPHA))
  {
    hide L.Smoothed, M.Pow, Repeat;
    SmoothedFades(values + [1.0], k);
    SmoothedPush(values, 1.0);
  }

  lemma ThreeSalesForecast()
    ensures WholeValues(ThreeSales()) && |ThreeSales()| == 61
    ensures 0.02498 < L.LegacyDaily(ThreeSales()) < 0.02499
  {
    var none := Repeat(0.0, 35);
    var one := none + [1.0] + Repeat(0.0, 4);
    var two := one + [1.0] + Repeat(0.0, 12);
    var all := two + [1.0] + Repeat(0.0, 7);
    assert all == ThreeSales();
    L.SmoothedBetween(none, L.LEGACY_ALPHA, 0.0, 0.0);
    SaleAfter(none, 4);
    SaleAfter(one, 12);
    SaleAfter(two, 7);
    Powers();
    SumOfSale(none, 4);
    SumOfSale(one, 12);
    SumOfSale(two, 7);
    SumBounds(none, 0.0, 0.0);
    hide L.Smoothed, M.Pow, Sum, Repeat;
    assert Mean(all) == 3.0 / 61.0;
  }

  lemma Powers()
    ensures M.Pow(0.7, 4) == 0.2401 && M.Pow(0.7, 7) == 0.0823543 && M.Pow(0.7, 12) == 0.013841287201
  {
    assert M.Pow(0.7, 2) == 0.49;
    assert M.Pow(0.7, 4) == 0.2401;
    assert M.Pow(0.7, 6) == 0.117649;
    assert M.Pow(0.7, 8) == 0.05764801;
    assert M.Pow(0.7, 10) == 0.0282475249;
  }

  lemma SumOfSale(values: seq<real>, k: nat)
    ensures Sum(values + [1.0] + Repeat(0.0, k)) == Sum(values) + 1.0
  {
    SumConcat(values + [1.0], Repeat(0.0, k));
    SumPush(values, 1.0);
    SumBounds(Repeat(0.0, k), 0.0, 0.0);
  }
}
