/** Two-phase chat actions: proposals that only a confirmation turns into a purchase order. */
module ChatActions {
  import opened Options

  datatype Status = Pending | Confirmed | Cancelled | Expired

  // Parameters a confirmation can read as a SKU and a quantity, or not.
  datatype Params = Readable(sku: int, quantity: int) | Malformed

  datatype Action = Action(status: Status, expires: int, params: Params, order: Option<nat>)

  // A purchase order created by a confirmation; it always starts pending approval. Its id is its row number.
  datatype OrderRow = OrderRow(sku: int, quantity: int)

  datatype Error = NotFound | Conflict | Gone
  datatype Result = Ok(order: Option<nat>) | Err(error: Error)

  datatype Desk = Desk(actions: map<string, Action>, orders: seq<OrderRow>)

  datatype Op = Propose(id: string, expires: int, params: Params) | Confirm(id: string, now: int) | Cancel(id: string, now: int)

  datatype Outcome = Outcome(desk: Desk, result: Result)

  // What resolving an action must find first; a late attempt records the expiry.
  function Required(d: Desk, id: string, now: int): (o: Outcome)
    ensures o.result.Ok? <==> id in d.actions && d.actions[id].status == Pending && now <= d.actions[id].expires
    ensures o.result.Ok? ==> o.desk == d
  {
    if id !in d.actions then Outcome(d, Err(NotFound))
    else
      var a := d.actions[id];
      if a.status != Pending then Outcome(d, Err(Conflict))
      else if now > a.expires then Outcome(d.(actions := d.actions[id := a.(status := Expired)]), Err(Gone))
      else Outcome(d, Ok(None))
  }

  function Apply(d: Desk, op: Op): Outcome {
    match op
    case Propose(id, expires, params) =>
      if id in d.actions then Outcome(d, Err(Conflict))
      else Outcome(d.(actions := d.actions[id := Action(Pending, expires, params, None)]), Ok(None))
    case Confirm(id, now) =>
      var r := Required(d, id, now);
      if r.result.Err? then r
      else
        var a := d.actions[id];
        if a.params.Malformed? then Outcome(d, Err(Conflict))
        else
          var po := |d.orders|;
          Outcome(Desk(d.actions[id := a.(status := Confirmed, order := Some(po))],
                       d.orders + [OrderRow(a.params.sku, a.params.quantity)]), Ok(Some(po)))
    case Cancel(id, now) =>
      var r := Required(d, id, now);
      if r.result.Err? then r
      else Outcome(d.(actions := d.actions[id := d.actions[id].(status := Cancelled)]), Ok(None))
  }

  class ActionDesk {
    var actions: map<string, Action>
    var orders: seq<OrderRow>

    function Now(): Desk
      reads this
    {
      Desk(actions, orders)
    }

    constructor ()
      ensures Now() == Desk(map[], [])
    {
      actions, orders := map[], [];
    }

    /** The pending check, which marks a stale action as expired before it fails. */
    method RequirePendingPersisted(id: string, now: int) returns (r: Result)
      modifies this
      ensures Outcome(Now(), r) == Required(old(Now()), id, now)
      ensures orders == old(orders)
      ensures r == if id !in old(actions) then Err(NotFound)
                   else if old(actions)[id].status != Pending then Err(Conflict)
                   else if now > old(actions)[id].expires then Err(Gone) else Ok(None)
      ensures actions == if r == Err(Gone) then old(actions)[id := old(actions)[id].(status := Expired)] else old(actions)
    {
      if id !in actions {
        return Err(NotFound);
      }
      var a := actions[id];
      if a.status != Pending {
        return Err(Conflict);
      }
      if now > a.expires {
        actions := actions[id := a.(status := Expired)];
        return Err(Gone);
      }
      r := Ok(None);
    }

    method ConfirmAction(id: string, now: int) returns (r: Result)
      modifies this
      ensures Outcome(Now(), r) == Apply(old(Now()), Confirm(id, now))
      ensures r.Ok? <==> id in old(actions) && old(actions)[id].status == Pending && now <= old(actions)[id].expires
                         && old(actions)[id].params.Readable?
      ensures r.Ok? ==>
        var (a, po) := (old(actions)[id], |old(orders)|);
        && r.order == Some(po) && orders == old(orders) + [OrderRow(a.params.sku, a.params.quantity)]
        && actions == old(actions)[id := a.(status := Confirmed, order := Some(po))]
      ensures r.Err? ==> orders == old(orders)
    {
      r := RequirePendingPersisted(id, now);
      if r.Err? {
        return;
      }
      var a := actions[id];
      if a.params.Malformed? {
        return Err(Conflict);
      }
      var po := |orders|;
      orders := orders + [OrderRow(a.params.sku, a.params.quantity)];
      a := a.(status := Confirmed);
      a := a.(order := Some(po));
      actions := actions[id := a];
      r := Ok(Some(po));
    }

    method CancelAction(id: string, now: int) returns (r: Result)
      modifies this
      ensures Outcome(Now(), r) == Apply(old(Now()), Cancel(id, now))
      ensures r.Ok? <==> id in old(actions) && old(actions)[id].status == Pending && now <= old(actions)[id].expires
      ensures r.Ok? ==> actions == old(actions)[id := old(actions)[id].(status := Cancelled)]
      ensures orders == old(orders)
    {
      r := RequirePendingPersisted(id, now);
      if r.Err? {
        return;
      }
      actions := actions[id := actions[id].(status := Cancelled)];
      r := Ok(None);
    }
  }

  // ---- runs ----

  function Run(ops: seq<Op>): Desk {
    if |ops| == 0 then Desk(map[], []) else Apply(Run(ops[..|ops| - 1]), ops[|ops| - 1]).desk
  }

  function ConfirmedIds(d: Desk): set<string> {
    set id | id in d.actions && d.actions[id].status == Confirmed
  }

  /** Confirmed actions and created orders correspond one to one, each order to the
      action that names it and made from that action's parameters. */
  ghost predicate Linked(d: Desk) {
    && (forall id :: id in d.actions && d.actions[id].status != Confirmed ==> d.actions[id].order.None?)
    && (forall id :: id in ConfirmedIds(d) ==> OrderOf(d, id))
    && (forall a, b :: a in ConfirmedIds(d) && b in ConfirmedIds(d) && d.actions[a].order == d.actions[b].order ==> a == b)
    && |ConfirmedIds(d)| == |d.orders|
  }

  ghost predicate OrderOf(d: Desk, id: string)
    requires id in d.actions
  {
    var a := d.actions[id];
    a.order.Some? && a.order.value < |d.orders| && a.params.Readable?
    && d.orders[a.order.value] == OrderRow(a.params.sku, a.params.quantity)
  }

  // A change that leaves the confirmed actions and the orders alone.
  lemma QuietChange(d: Desk, e: Desk)
    requires Linked(d) && e.orders == d.orders && ConfirmedIds(e) == ConfirmedIds(d)
    requires forall id :: id in ConfirmedIds(d) ==> e.actions[id] == d.actions[id]
    requires forall id :: id in e.actions && e.actions[id].status != Confirmed ==> e.actions[id].order.None?
    ensures Linked(e)
  {
    forall id | id in ConfirmedIds(e) ensures OrderOf(e, id) {
      assert OrderOf(d, id);
    }
  }

  lemma NewOrder(d: Desk, id: string, po: OrderRow)
    requires Linked(d) && id in d.actions && d.actions[id].status == Pending
    requires d.actions[id].params.Readable? && po == OrderRow(d.actions[id].params.sku, d.actions[id].params.quantity)
    ensures Linked(Desk(d.actions[id := d.actions[id].(status := Confirmed, order := Some(|d.orders|))], d.orders + [po]))
  {
    var e := Desk(d.actions[id := d.actions[id].(status := Confirmed, order := Some(|d.orders|))], d.orders + [po]);
    assert ConfirmedIds(e) == ConfirmedIds(d) + {id};
    assert id !in ConfirmedIds(d);
    forall k | k in ConfirmedIds(e) ensures OrderOf(e, k) {
      if k != id { assert OrderOf(d, k); }
    }
    forall k | k in ConfirmedIds(d) ensures e.actions[k].order != Some(|d.orders|) {
      assert OrderOf(d, k);
    }
  }

  lemma {:induction false} ApplyKeepsLinked(d: Desk, op: Op)
    requires Linked(d)
    ensures Linked(Apply(d, op).desk)
  {
    hide Linked;
    var e := Apply(d, op).desk;
    if op.Confirm? && Apply(d, op).result.Ok? {
      NewOrder(d, op.id, e.orders[|d.orders|]);
    } else {
      OtherActions(d, op);
      QuietChange(d, e);
    }
  }

  lemma {:induction false} OtherActions(d: Desk, op: Op)
    requires Linked(d) && !(op.Confirm? && Apply(d, op).result.Ok?)
    ensures var e := Apply(d, op).desk;
      && e.orders == d.orders && ConfirmedIds(e) == ConfirmedIds(d)
      && (forall id :: id in ConfirmedIds(d) ==> e.actions[id] == d.actions[id])
      && (forall id :: id in e.actions && e.actions[id].status != Confirmed ==> e.actions[id].order.None?)
  {
  }

  /** After every sequential run of proposals, confirmations and cancellations: as many
      orders as confirmed actions, each confirmed action naming its own distinct order. */
  lemma {:induction false} OrdersAreConfirmedActions(ops: seq<Op>)
    ensures Linked(Run(ops))
  {
    if |ops| == 0 {
      assert ConfirmedIds(Desk(map[], [])) == {};
    } else {
      OrdersAreConfirmedActions(ops[..|ops| - 1]);
      ApplyKeepsLinked(Run(ops[..|ops| - 1]), ops[|ops| - 1]);
    }
  }

  /** A resolved action never changes again, whatever is attempted on it. */
  lemma {:induction false} ResolutionIsFinal(a: seq<Op>, b: seq<Op>, id: string)
    requires id in Run(a).actions && Run(a).actions[id].status != Pending
    ensures id in Run(a + b).actions && Run(a + b).actions[id] == Run(a).actions[id]
  {
    if |b| == 0 {
      assert a + b == a;
    } else {
      var n := |b| - 1;
      assert (a + b)[..|a| + n] == a + b[..n];
      ResolutionIsFinal(a, b[..n], id);
    }
  }

  predicate IsConfirmOf(op: Op, id: string) {
    op.Confirm? && op.id == id
  }

  /** How many confirmations of an action succeeded. */
  function Confirmations(ops: seq<Op>, id: string): nat {
    if |ops| == 0 then 0
    else
      var prior, op := ops[..|ops| - 1], ops[|ops| - 1];
      Confirmations(prior, id) + if IsConfirmOf(op, id) && Apply(Run(prior), op).result.Ok? then 1 else 0
  }

  /** An action is confirmed successfully at most once, and exactly when it ends up confirmed. */
  lemma {:induction false} ConfirmedAtMostOnce(ops: seq<Op>, id: string)
    ensures Confirmations(ops, id) == if id in ConfirmedIds(Run(ops)) then 1 else 0
  {
    if |ops| > 0 {
      ConfirmedAtMostOnce(ops[..|ops| - 1], id);
    }
  }
}
