/** From a forecast to a risk alert to a purchase order, and what the next run does. */
module Replenishment {
  import opened Options
  import opened RealSeq

  const SAFETY_BUFFER_DAYS := 7
  const RISK_BUFFER := 1.5
  const PENDING_DEDUP := 3600          // one hour, in seconds
  const IN_TRANSIT := 14 * 24 * 3600   // fourteen days

  // ---- quantity ----

  function PlanningDemand(predicted: real, p90: Option<real>): (d: real)
    ensures d >= predicted
    ensures p90.Some? && p90.value > 0.0 ==> d >= p90.value
    ensures d == predicted || (p90.Some? && d == p90.value)
  {
    if p90.None? || p90.value <= 0.0 then predicted else Max(predicted, p90.value)
  }

  function Ceil(x: real): (c: int)
    ensures c as real - 1.0 < x <= c as real
  {
    if x == x.Floor as real then x.Floor else x.Floor + 1
  }

  function Required(demand: real, lead: int): real {
    demand * (lead + SAFETY_BUFFER_DAYS) as real
  }

  function ReorderQuantity(demand: real, stock: int, lead: int, moq: int, onOrder: int): int {
    if demand <= 0.0 then 0
    else
      var needed := Required(demand, lead) - stock as real - onOrder as real;
      var c := Ceil(needed);
      var quantity := if c > 0 then c else 0;
      if 0 < quantity < moq then moq else quantity
  }

  // A quantity the supplier accepts that, with stock and open orders, covers the planning window.
  predicate Enough(q: int, demand: real, stock: int, lead: int, moq: int, onOrder: int) {
    && q >= 0 && (q == 0 || q >= moq)
    && (q + stock + onOrder) as real >= Required(demand, lead)
  }

  /** For positive demand the quantity is the least acceptable one that covers the window. */
  lemma QuantityIsLeastEnough(demand: real, stock: int, lead: int, moq: int, onOrder: int, k: int)
    requires demand > 0.0
    ensures var q := ReorderQuantity(demand, stock, lead, moq, onOrder);
      && Enough(q, demand, stock, lead, moq, onOrder)
      && (Enough(k, demand, stock, lead, moq, onOrder) ==> q <= k)
  {
    hide Required;
  }

  lemma PositiveIffShort(demand: real, stock: int, lead: int, moq: int, onOrder: int)
    requires demand > 0.0
    ensures ReorderQuantity(demand, stock, lead, moq, onOrder) > 0
       <==> (stock + onOrder) as real < Required(demand, lead)
  {
    hide Required;
  }

  // ---- risk ----

  datatype Level = Safe | Warning | Critical

  function Severity(l: Level): nat {
    match l case Safe => 0 case Warning => 1 case Critical => 2
  }

  function Classify(days: real, lead: int): Level {
    if days <= lead as real then Critical
    else if days <= lead as real * RISK_BUFFER then Warning
    else Safe
  }

  function RiskLevel(days: Option<real>, lead: int, daysP90: Option<real>): Level {
    if days.None? then Safe
    else
      var level := Classify(days.value, lead);
      if daysP90.Some? && Severity(Classify(daysP90.value, lead)) > Severity(level) then Classify(daysP90.value, lead)
      else level
  }

  /** The level is the worse of the two covers, so the p90 band can only escalate. */
  lemma WorstCoverDecides(days: real, lead: int, daysP90: Option<real>)
    ensures var l := RiskLevel(Some(days), lead, daysP90);
      && Severity(l) >= Severity(Classify(days, lead))
      && (daysP90.Some? ==> Severity(l) >= Severity(Classify(daysP90.value, lead)))
      && (l == Classify(days, lead) || (daysP90.Some? && l == Classify(daysP90.value, lead)))
  {
  }

  /** A SKU is critical exactly when one of its covers is within the lead time, and safe
      exactly when both exceed one and a half times it or there is no point forecast. */
  lemma LevelsAre(days: Option<real>, lead: int, daysP90: Option<real>)
    requires lead >= 0
    ensures RiskLevel(days, lead, daysP90) == Critical
       <==> days.Some? && (days.value <= lead as real || (daysP90.Some? && daysP90.value <= lead as real))
    ensures RiskLevel(days, lead, daysP90) == Safe
       <==> (days.Some? ==> days.value > 1.5 * lead as real && (daysP90.Some? ==> daysP90.value > 1.5 * lead as real))
  {
  }

  // Days of cover before any rounding.
  function ExactCover(stock: int, demand: real): Option<real> {
    if demand <= 0.0 then None else Some(stock as real / demand)
  }

  function ExactCoverP90(stock: int, p90: Option<real>): Option<real> {
    if p90.None? then None else ExactCover(stock, p90.value)
  }

  lemma CoverBound(stock: int, demand: real, limit: real)
    requires demand > 0.0 && stock as real / demand <= limit
    ensures stock as real <= limit * demand
  {
    var q := stock as real / demand;
    assert q * demand == stock as real;
    MulMono(q, limit, demand);
  }

  // Cover of at most `limit` days under some demand the plan includes means the plan is short.
  lemma ShortPlan(stock: int, d: real, basis: real, lead: int, limit: real)
    requires 0.0 < d <= basis && lead >= 0 && stock as real / d <= limit && limit < (lead + SAFETY_BUFFER_DAYS) as real
    ensures stock as real < Required(basis, lead)
  {
    CoverBound(stock, d, limit);
    var w := (lead + SAFETY_BUFFER_DAYS) as real;
    assert limit * d < w * d by { StrictProd(w - limit, d); assert (w - limit) * d == w * d - limit * d; }
    MulMono(d, basis, w);
  }

  /** In exact arithmetic, with nothing on order: a critical alert always yields a
      positive order, and so does a warning when the lead time is under 14 days. */
  lemma {:induction false} AlertYieldsOrder(stock: int, predicted: real, p90: Option<real>, lead: int, moq: int)
    requires lead >= 0
    requires var l := RiskLevel(ExactCover(stock, predicted), lead, ExactCoverP90(stock, p90));
      l == Critical || (l == Warning && lead < 14)
    ensures ReorderQuantity(PlanningDemand(predicted, p90), stock, lead, moq, 0) > 0
  {
    hide ReorderQuantity, Required;
    var l := RiskLevel(ExactCover(stock, predicted), lead, ExactCoverP90(stock, p90));
    var basis := PlanningDemand(predicted, p90);
    var d := if l == Classify(stock as real / predicted, lead) then predicted else p90.value;
    var limit := if l == Critical then lead as real else lead as real * RISK_BUFFER;
    assert stock as real / d <= limit;
    ShortPlan(stock, d, basis, lead, limit);
    PositiveIffShort(basis, stock, lead, moq, 0);
  }

  ghost predicate WarningsOrder(lead: int) {
    forall stock, predicted, p90, moq ::
      RiskLevel(ExactCover(stock, predicted), lead, ExactCoverP90(stock, p90)) == Warning ==>
        ReorderQuantity(PlanningDemand(predicted, p90), stock, lead, moq, 0) > 0
  }

  /** In exact arithmetic every warning yields an order exactly when the lead time is under 14 days. */
  lemma WarningsOrderExactly(lead: int)
    requires lead >= 0
    ensures WarningsOrder(lead) <==> lead < 14
  {
    if lead < 14 {
      forall stock, predicted, p90, moq |
          RiskLevel(ExactCover(stock, predicted), lead, ExactCoverP90(stock, p90)) == Warning
        ensures ReorderQuantity(PlanningDemand(predicted, p90), stock, lead, moq, 0) > 0 {
        AlertYieldsOrder(stock, predicted, p90, lead, moq);
      }
    } else {
      WarningMayNotOrder(lead);
    }
  }

  // Stock for exactly the planning window: under warning, yet nothing is missing.
  lemma WarningMayNotOrder(lead: int)
    requires lead >= 14
    ensures RiskLevel(ExactCover(lead + 7, 1.0), lead, ExactCoverP90(lead + 7, None)) == Warning
    ensures ReorderQuantity(PlanningDemand(1.0, None), lead + 7, lead, 1, 0) == 0
  {
    assert (lead + 7) as real / 1.0 == lead as real + 7.0;
  }

  // ---- drafting orders ----

  datatype Status = Pending | Approved | Closed

  datatype Order = Order(sku: int, status: Status, quantity: int, createdAt: int, approvedAt: int)

  datatype Forecast = Forecast(predicted: real, p90: Option<real>)

  datatype Sku = Sku(stock: int, lead: int, moq: int)

  predicate OpenAt(o: Order, now: int) {
    o.status == Pending || (o.status == Approved && o.approvedAt >= now - IN_TRANSIT)
  }

  function OnOrder(rows: seq<Order>, sku: int, now: int): int {
    if |rows| == 0 then 0
    else
      var o := rows[|rows| - 1];
      OnOrder(rows[..|rows| - 1], sku, now) + if o.sku == sku && OpenAt(o, now) then o.quantity else 0
  }

  predicate RecentlyPending(rows: seq<Order>, sku: int, now: int) {
    exists i :: 0 <= i < |rows| && rows[i].sku == sku && rows[i].status == Pending && rows[i].createdAt >= now - PENDING_DEDUP
  }

  predicate Known(sku: int, skus: map<int, Sku>, forecasts: map<int, Forecast>) {
    sku in skus && sku in forecasts
  }

  function DemandOf(f: Forecast): real {
    PlanningDemand(f.predicted, f.p90)
  }

  // The quantity one alert asks for, given the orders already in the table.
  function QuantityFor(sku: int, skus: map<int, Sku>, forecasts: map<int, Forecast>, rows: seq<Order>, now: int): int
    requires Known(sku, skus, forecasts)
  {
    var s := skus[sku];
    ReorderQuantity(DemandOf(forecasts[sku]), s.stock, s.lead, s.moq, OnOrder(rows, sku, now))
  }

  predicate Drafts(sku: int, skus: map<int, Sku>, forecasts: map<int, Forecast>, rows: seq<Order>, now: int) {
    && !RecentlyPending(rows, sku, now) && Known(sku, skus, forecasts)
    && QuantityFor(sku, skus, forecasts, rows, now) > 0
  }

  /** The orders one run creates for its alerts. */
  function Drafted(alerts: seq<int>, skus: map<int, Sku>, forecasts: map<int, Forecast>, rows: seq<Order>, now: int): seq<Order> {
    if |alerts| == 0 then []
    else
      var sku := alerts[|alerts| - 1];
      Drafted(alerts[..|alerts| - 1], skus, forecasts, rows, now)
      + if Drafts(sku, skus, forecasts, rows, now) then
          [Order(sku, Pending, QuantityFor(sku, skus, forecasts, rows, now), now, 0)]
        else []
  }

  // ---- what counts as on order ----

  ghost predicate PendingOrInTransit(o: Order, now: int) {
    o.status == Pending || (o.status == Approved && o.approvedAt >= now - 14 * 24 * 3600)
  }

  // Each row's contribution to what is on order for a SKU.
  ghost function OpenAmounts(rows: seq<Order>, sku: int, now: int): seq<int> {
    seq(|rows|, i requires 0 <= i < |rows| => if rows[i].sku == sku && PendingOrInTransit(rows[i], now) then rows[i].quantity else 0)
  }

  ghost function Total(s: seq<int>): int {
    if |s| == 0 then 0 else Total(s[..|s| - 1]) + s[|s| - 1]
  }

  /** What is on order for a SKU is the sum over exactly its pending orders and those
      approved within the last fourteen days. */
  lemma {:induction false} OnOrderIsSum(rows: seq<Order>, sku: int, now: int)
    ensures OnOrder(rows, sku, now) == Total(OpenAmounts(rows, sku, now))
  {
    if |rows| > 0 {
      var n := |rows| - 1;
      OnOrderIsSum(rows[..n], sku, now);
      assert OpenAmounts(rows, sku, now)[..n] == OpenAmounts(rows[..n], sku, now);
    }
  }

  class OrderBook {
    var rows: seq<Order>

    // The per-SKU totals of open orders, read once before the alerts are handled.
    method OpenQuantities(alerts: seq<int>, now: int) returns (onOrder: map<int, int>)
      ensures forall sku :: sku in alerts ==>
        sku in onOrder && onOrder[sku] == OnOrder(rows, sku, now) == Total(OpenAmounts(rows, sku, now))
    {
      hide OnOrder, OpenAmounts, Total;
      onOrder := map[];
      for i := 0 to |alerts|
        invariant forall j :: 0 <= j < i ==> alerts[j] in onOrder
        invariant forall sku :: sku in onOrder ==> onOrder[sku] == OnOrder(rows, sku, now) == Total(OpenAmounts(rows, sku, now))
      {
        OnOrderIsSum(rows, alerts[i], now);
        onOrder := onOrder[alerts[i] := OnOrder(rows, alerts[i], now)];
      }
    }

    method PoDraft(alerts: seq<int>, skus: map<int, Sku>, forecasts: map<int, Forecast>, now: int) returns (created: seq<Order>)
      modifies this
      ensures created == Drafted(alerts, skus, forecasts, old(rows), now)
      ensures rows == old(rows) + created
    {
      var onOrder := OpenQuantities(alerts, now);
      var batch: seq<Order> := [];
      for i := 0 to |alerts|
        invariant rows == old(rows)
        invariant batch == Drafted(alerts[..i], skus, forecasts, rows, now)
      {
        hide OnOrder, ReorderQuantity, PlanningDemand;
        assert alerts[..i + 1][..i] == alerts[..i];
        var sku := alerts[i];
        if RecentlyPending(rows, sku, now) || sku !in skus || sku !in forecasts {
          continue;
        }
        var s := skus[sku];
        var quantity := ReorderQuantity(DemandOf(forecasts[sku]), s.stock, s.lead, s.moq, onOrder[sku]);
        if quantity <= 0 {
          continue;
        }
        batch := batch + [Order(sku, Pending, quantity, now, 0)];
      }
      assert alerts[..|alerts|] == alerts;
      created := batch;
      rows := rows + batch;
    }
  }

  lemma {:induction false} OnOrderConcat(a: seq<Order>, b: seq<Order>, sku: int, now: int)
    ensures OnOrder(a + b, sku, now) == OnOrder(a, sku, now) + OnOrder(b, sku, now)
  {
    if |b| == 0 {
      assert a + b == a;
    } else {
      assert (a + b)[..|a| + |b| - 1] == a + b[..|b| - 1];
      OnOrderConcat(a, b[..|b| - 1], sku, now);
    }
  }

  ghost predicate PositiveQuantities(rows: seq<Order>) {
    forall i :: 0 <= i < |rows| ==> rows[i].quantity > 0
  }

  lemma {:induction false} OnOrderNonneg(rows: seq<Order>, sku: int, now: int)
    requires PositiveQuantities(rows)
    ensures OnOrder(rows, sku, now) >= 0
  {
    if |rows| > 0 { OnOrderNonneg(rows[..|rows| - 1], sku, now); }
  }

  // A new pending order: its SKU is known and has none pending from the last hour, and its
  // quantity is the least acceptable one that covers a window stock and open orders do not.
  ghost predicate Fits(o: Order, skus: map<int, Sku>, forecasts: map<int, Forecast>, rows: seq<Order>, now: int) {
    && o.status == Pending && o.createdAt == now && o.approvedAt == 0
    && o.sku in skus && o.sku in forecasts
    && (forall i :: 0 <= i < |rows| && rows[i].sku == o.sku && rows[i].status == Pending ==> rows[i].createdAt < now - 3600)
    && var (s, f) := (skus[o.sku], forecasts[o.sku]);
       var demand := if f.p90.Some? && f.p90.value > f.predicted && f.p90.value > 0.0 then f.p90.value else f.predicted;
       demand > 0.0 && LeastCovering(o.quantity, demand, s, Total(OpenAmounts(rows, o.sku, now)))
  }

  ghost predicate LeastCovering(q: int, demand: real, s: Sku, open: int) {
    && (s.stock + open) as real < Required(demand, s.lead)
    && Enough(q, demand, s.stock, s.lead, s.moq, open)
    && forall k :: Enough(k, demand, s.stock, s.lead, s.moq, open) ==> q <= k
  }

  lemma LeastCoveringIs(q: int, demand: real, s: Sku, open: int)
    requires demand > 0.0
    ensures LeastCovering(q, demand, s, open)
       <==> q > 0 && q == ReorderQuantity(demand, s.stock, s.lead, s.moq, open)
  {
    hide Required;
    var r := ReorderQuantity(demand, s.stock, s.lead, s.moq, open);
    PositiveIffShort(demand, s.stock, s.lead, s.moq, open);
    forall k | Enough(k, demand, s.stock, s.lead, s.moq, open) ensures r <= k {
      QuantityIsLeastEnough(demand, s.stock, s.lead, s.moq, open, k);
    }
    QuantityIsLeastEnough(demand, s.stock, s.lead, s.moq, open, 0);
    assert Enough(r, demand, s.stock, s.lead, s.moq, open);
  }

  lemma {:induction false} FitsMeansDrafted(o: Order, skus: map<int, Sku>, forecasts: map<int, Forecast>, rows: seq<Order>, now: int)
    ensures Fits(o, skus, forecasts, rows, now)
       <==> Drafts(o.sku, skus, forecasts, rows, now)
            && o == Order(o.sku, Pending, QuantityFor(o.sku, skus, forecasts, rows, now), now, 0)
  {
    OnOrderIsSum(rows, o.sku, now);
    hide OnOrder, Total, OpenAmounts, LeastCovering;
    if Known(o.sku, skus, forecasts) {
      var demand := DemandOf(forecasts[o.sku]);
      if demand > 0.0 { LeastCoveringIs(o.quantity, demand, skus[o.sku], OnOrder(rows, o.sku, now)); }
    }
  }

  /** The orders a run creates are exactly the fitting ones of its alerted SKUs. */
  lemma {:induction false} DraftedExactly(alerts: seq<int>, skus: map<int, Sku>, forecasts: map<int, Forecast>,
                                         rows: seq<Order>, now: int, o: Order)
    ensures o in Drafted(alerts, skus, forecasts, rows, now) <==> o.sku in alerts && Fits(o, skus, forecasts, rows, now)
  {
    hide Drafts, QuantityFor, Fits;
    if |alerts| > 0 {
      var n := |alerts| - 1;
      DraftedExactly(alerts[..n], skus, forecasts, rows, now, o);
      FitsMeansDrafted(o, skus, forecasts, rows, now);
      assert alerts == alerts[..n] + [alerts[n]];
    }
  }

  /** An alerted SKU gets at most one order a run, if it is alerted once. */
  lemma {:induction false} OneOrderEach(alerts: seq<int>, skus: map<int, Sku>, forecasts: map<int, Forecast>, rows: seq<Order>, now: int)
    requires forall i, j :: 0 <= i < j < |alerts| ==> alerts[i] != alerts[j]
    ensures var d := Drafted(alerts, skus, forecasts, rows, now);
      forall i, j :: 0 <= i < j < |d| ==> d[i].sku != d[j].sku
  {
    hide Drafts, QuantityFor;
    if |alerts| > 0 {
      var n := |alerts| - 1;
      OneOrderEach(alerts[..n], skus, forecasts, rows, now);
      var d := Drafted(alerts[..n], skus, forecasts, rows, now);
      forall i | 0 <= i < |d| ensures d[i].sku != alerts[n] {
        DraftedExactly(alerts[..n], skus, forecasts, rows, now, d[i]);
      }
    }
  }

  // What a run orders for an alerted SKU is at least the quantity its alert asked for.
  lemma {:induction false} DraftedCoversAlert(alerts: seq<int>, skus: map<int, Sku>, forecasts: map<int, Forecast>,
                                             rows: seq<Order>, now: int, i: nat)
    requires i < |alerts| && Drafts(alerts[i], skus, forecasts, rows, now)
    ensures PositiveQuantities(Drafted(alerts, skus, forecasts, rows, now))
    ensures OnOrder(Drafted(alerts, skus, forecasts, rows, now), alerts[i], now)
         >= QuantityFor(alerts[i], skus, forecasts, rows, now)
    ensures Order(alerts[i], Pending, QuantityFor(alerts[i], skus, forecasts, rows, now), now, 0)
         in Drafted(alerts, skus, forecasts, rows, now)
  {
    hide QuantityFor, RecentlyPending;
    var n := |alerts| - 1;
    var d := Drafted(alerts[..n], skus, forecasts, rows, now);
    DraftedPositive(alerts[..n], skus, forecasts, rows, now);
    var last := alerts[n];
    var extra := if Drafts(last, skus, forecasts, rows, now) then
      [Order(last, Pending, QuantityFor(last, skus, forecasts, rows, now), now, 0)] else [];
    assert Drafted(alerts, skus, forecasts, rows, now) == d + extra;
    OnOrderConcat(d, extra, alerts[i], now);
    OnOrderNonneg(d, alerts[i], now);
    OnOrderNonneg(extra, alerts[i], now);
    if i < n {
      DraftedCoversAlert(alerts[..n], skus, forecasts, rows, now, i);
      var k :| 0 <= k < |d| && d[k] == Order(alerts[i], Pending, QuantityFor(alerts[i], skus, forecasts, rows, now), now, 0);
      assert (d + extra)[k] == d[k];
    } else {
      assert extra[..0] == [];
      assert (d + extra)[|d|] == extra[0];
    }
  }

  lemma {:induction false} DraftedPositive(alerts: seq<int>, skus: map<int, Sku>, forecasts: map<int, Forecast>,
                                          rows: seq<Order>, now: int)
    ensures PositiveQuantities(Drafted(alerts, skus, forecasts, rows, now))
  {
    if |alerts| > 0 { DraftedPositive(alerts[..|alerts| - 1], skus, forecasts, rows, now); }
  }

  // Every order of the SKU that was pending or in transit still is, for at least as much.
  ghost predicate StillOpen(before: seq<Order>, then_: int, after: seq<Order>, now: int, sku: int) {
    && |before| <= |after|
    && forall i :: 0 <= i < |before| && before[i].sku == sku && PendingOrInTransit(before[i], then_) ==>
         after[i].sku == sku && PendingOrInTransit(after[i], now) && after[i].quantity >= before[i].quantity
  }

  lemma {:induction false} OpenOrdersPersist(before: seq<Order>, then_: int, after: seq<Order>, now: int, sku: int)
    requires StillOpen(before, then_, after, now, sku) && PositiveQuantities(after)
    ensures OnOrder(after, sku, now) >= OnOrder(before, sku, then_)
  {
    if |before| < |after| {
      var n := |after| - 1;
      assert StillOpen(before, then_, after[..n], now, sku);
      OpenOrdersPersist(before, then_, after[..n], now, sku);
    } else if |before| > 0 {
      var n := |before| - 1;
      OpenOrdersPersist(before[..n], then_, after[..n], now, sku);
    }
  }

  /** After a run, stock and open orders of every alerted SKU it did not skip cover the planning window. */
  lemma {:induction false} RunCoversDemand(alerts: seq<int>, skus: map<int, Sku>, forecasts: map<int, Forecast>,
                                          rows: seq<Order>, now: int, i: nat)
    requires i < |alerts| && Known(alerts[i], skus, forecasts) && !RecentlyPending(rows, alerts[i], now)
    requires DemandOf(forecasts[alerts[i]]) > 0.0
    ensures var sku := alerts[i];
      (skus[sku].stock + OnOrder(rows + Drafted(alerts, skus, forecasts, rows, now), sku, now)) as real
      >= Required(DemandOf(forecasts[sku]), skus[sku].lead)
  {
    hide OnOrder, Required, PlanningDemand, RecentlyPending;
    var sku := alerts[i];
    var s, demand := skus[sku], DemandOf(forecasts[sku]);
    var open := OnOrder(rows, sku, now);
    QuantityIsLeastEnough(demand, s.stock, s.lead, s.moq, open, 0);
    var d := Drafted(alerts, skus, forecasts, rows, now);
    OnOrderConcat(rows, d, sku, now);
    DraftedPositive(alerts, skus, forecasts, rows, now);
    OnOrderNonneg(d, sku, now);
    if QuantityFor(sku, skus, forecasts, rows, now) > 0 {
      DraftedCoversAlert(alerts, skus, forecasts, rows, now, i);
    }
  }

  /** A later run with the same stock, forecasts and settings orders nothing for an alerted
      SKU as long as the orders open after the first run are still open: pending, or
      approved within the last 14 days. */
  lemma {:induction false} RerunOrdersNothing(alerts: seq<int>, skus: map<int, Sku>, forecasts: map<int, Forecast>,
                                             rows: seq<Order>, now: int, i: nat, later: seq<Order>, laterNow: int)
    requires i < |alerts| && Known(alerts[i], skus, forecasts) && !RecentlyPending(rows, alerts[i], now)
    requires PositiveQuantities(later)
    requires StillOpen(rows + Drafted(alerts, skus, forecasts, rows, now), now, later, laterNow, alerts[i])
    ensures QuantityFor(alerts[i], skus, forecasts, later, laterNow) == 0
    ensures !Drafts(alerts[i], skus, forecasts, later, laterNow)
  {
    hide OnOrder, Required, PlanningDemand, RecentlyPending, StillOpen;
    var sku := alerts[i];
    var s, demand := skus[sku], DemandOf(forecasts[sku]);
    if demand > 0.0 {
      RunCoversDemand(alerts, skus, forecasts, rows, now, i);
      OpenOrdersPersist(rows + Drafted(alerts, skus, forecasts, rows, now), now, later, laterNow, sku);
      var open := OnOrder(later, sku, laterNow);
      PositiveIffShort(demand, s.stock, s.lead, s.moq, open);
      QuantityIsLeastEnough(demand, s.stock, s.lead, s.moq, open, 0);
    }
  }

  ghost predicate HasNewOrder(created: seq<Order>, sku: int, now: int) {
    exists k :: 0 <= k < |created| && created[k].sku == sku && created[k].quantity > 0
      && created[k].status == Pending && created[k].createdAt == now
  }

  lemma {:induction false} PositiveIsDrafted(alerts: seq<int>, skus: map<int, Sku>, forecasts: map<int, Forecast>,
                                            rows: seq<Order>, now: int, i: nat)
    requires i < |alerts| && Drafts(alerts[i], skus, forecasts, rows, now)
    ensures HasNewOrder(Drafted(alerts, skus, forecasts, rows, now), alerts[i], now)
  {
    hide RecentlyPending, OnOrder, ReorderQuantity;
    DraftedCoversAlert(alerts, skus, forecasts, rows, now, i);
    var order := Order(alerts[i], Pending, QuantityFor(alerts[i], skus, forecasts, rows, now), now, 0);
    var k :| 0 <= k < |Drafted(alerts, skus, forecasts, rows, now)| && Drafted(alerts, skus, forecasts, rows, now)[k] == order;
  }

  /** In exact arithmetic a critical SKU, or a warned one with a lead time under 14 days,
      with no open order gets a positive order in the same run. */
  lemma {:induction false} CriticalAlertIsDrafted(alerts: seq<int>, skus: map<int, Sku>, forecasts: map<int, Forecast>,
                                                rows: seq<Order>, now: int, i: nat)
    requires i < |alerts| && Known(alerts[i], skus, forecasts)
    requires skus[alerts[i]].lead >= 0 && OnOrder(rows, alerts[i], now) == 0 && !RecentlyPending(rows, alerts[i], now)
    requires var l := AlertOf(skus[alerts[i]], forecasts[alerts[i]]);
      l == Critical || (l == Warning && skus[alerts[i]].lead < 14)
    ensures HasNewOrder(Drafted(alerts, skus, forecasts, rows, now), alerts[i], now)
  {
    hide RiskLevel, ExactCover, ExactCoverP90, RecentlyPending, OnOrder, ReorderQuantity, Drafted, HasNewOrder;
    var s, f := skus[alerts[i]], forecasts[alerts[i]];
    AlertYieldsOrder(s.stock, f.predicted, f.p90, s.lead, s.moq);
    PositiveIsDrafted(alerts, skus, forecasts, rows, now, i);
  }

  function AlertOf(s: Sku, f: Forecast): Level {
    RiskLevel(ExactCover(s.stock, f.predicted), s.lead, ExactCoverP90(s.stock, f.p90))
  }
}
