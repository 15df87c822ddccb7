/** Approving and rejecting purchase orders: the atomic database steps of one
    request, and what survives when any number of requests interleave them. */
module PurchaseOrders {
  import opened Options

  datatype Status = Draft | Pending | Approved | Rejected | Expired

  datatype Order = Order(status: Status, quantity: int, thread: Option<string>,
                         approvedBy: Option<string>, approvedAt: Option<int>, rejectedReason: Option<string>,
                         edited: bool, originalQuantity: Option<int>)

  type Table = map<int, Order>

  datatype Error = NotFound | AlreadyDecided(status: Status) | Conflict | ResumeFailed
  datatype Result<+T> = Ok(value: T) | Err(error: Error)

  // What resolving an order hands to the rest of the request.
  datatype Snapshot = Snapshot(quantity: int, thread: Option<string>)

  datatype Decision = Approve(actor: string, at: int, quantity: int) | Reject(reason: string)

  // ---- the atomic steps ----

  function Resolved(rows: Table, id: int): Result<Snapshot> {
    if id !in rows then Err(NotFound)
    else if rows[id].status != Pending then Err(AlreadyDecided(rows[id].status))
    else Ok(Snapshot(rows[id].quantity, rows[id].thread))
  }

  function Marked(rows: Table, id: int, quantity: Option<int>): Table {
    if quantity.Some? && id in rows && rows[id].quantity != quantity.value then
      rows[id := rows[id].(edited := true, originalQuantity := Some(rows[id].quantity))]
    else rows
  }

  function Decided(row: Order, d: Decision): Order {
    match d
    case Approve(actor, at, q) => row.(status := Approved, approvedBy := Some(actor), approvedAt := Some(at), quantity := q)
    case Reject(reason) => row.(status := Rejected, rejectedReason := if reason == "" then None else Some(reason))
  }

  predicate CanDecide(rows: Table, id: int) {
    id in rows && rows[id].status == Pending
  }

  function Updated(rows: Table, id: int, d: Decision): Table {
    if CanDecide(rows, id) then rows[id := Decided(rows[id], d)] else rows
  }

  class OrderStore {
    var rows: Table

    method ResolvePo(id: int) returns (r: Result<Snapshot>)
      ensures r == Resolved(rows, id)
      ensures r == if id !in rows then Err(NotFound)
                   else if rows[id].status == Pending then Ok(Snapshot(rows[id].quantity, rows[id].thread))
                   else Err(AlreadyDecided(rows[id].status))
    {
      if id !in rows {
        return Err(NotFound);
      }
      if rows[id].status != Pending {
        return Err(AlreadyDecided(rows[id].status));
      }
      r := Ok(Snapshot(rows[id].quantity, rows[id].thread));
    }

    method MarkEditedIfChanged(id: int, approvedQuantity: Option<int>)
      modifies this
      ensures rows == Marked(old(rows), id, approvedQuantity)
      ensures rows.Keys == old(rows).Keys && rows - {id} == old(rows) - {id}
      ensures id in rows ==>
        var was := old(rows)[id];
        rows[id] == if approvedQuantity.Some? && approvedQuantity.value != was.quantity
                    then was.(edited := true, originalQuantity := Some(was.quantity)) else was
    {
      if approvedQuantity.None? {
        return;
      }
      if id in rows && rows[id].quantity != approvedQuantity.value {
        var row := rows[id];
        row := row.(edited := true);
        row := row.(originalQuantity := Some(row.quantity));
        rows := rows[id := row];
      }
    }

    method UpdatePoStatus(id: int, d: Decision) returns (r: Result<()>)
      modifies this
      ensures rows == Updated(old(rows), id, d)
      ensures r == if CanDecide(old(rows), id) then Ok(()) else Err(Conflict)
    {
      if id !in rows || rows[id].status != Pending {
        return Err(Conflict);
      }
      rows := rows[id := Decided(rows[id], d)];
      r := Ok(());
    }

    /** One approval run on its own; resumeOk is the outcome of resuming the graph thread, if there is one. */
    method ApprovePo(id: int, actor: string, quantity: Option<int>, now: int, resumeOk: bool) returns (r: Result<Status>)
      modifies this
      ensures r.Ok? <==> CanDecide(old(rows), id) && (old(rows)[id].thread.Some? ==> resumeOk)
      ensures r.Ok? ==>
        var was := old(rows)[id];
        var q := if quantity.Some? then quantity.value else was.quantity;
        && r.value == Approved && rows.Keys == old(rows).Keys
        && rows[id] == was.(status := Approved, approvedBy := Some(actor), approvedAt := Some(now), quantity := q,
                            edited := was.edited || q != was.quantity,
                            originalQuantity := if q != was.quantity then Some(was.quantity) else was.originalQuantity)
      ensures r.Err? ==> rows == old(rows) || (CanDecide(old(rows), id) && rows == Marked(old(rows), id, quantity))
      ensures rows - {id} == old(rows) - {id}
    {
      var snapshot := ResolvePo(id);
      if snapshot.Err? {
        return Err(snapshot.error);
      }
      MarkEditedIfChanged(id, quantity);
      if snapshot.value.thread.Some? && !resumeOk {
        return Err(ResumeFailed);
      }
      var q := if quantity.Some? then quantity.value else snapshot.value.quantity;
      var u := UpdatePoStatus(id, Approve(actor, now, q));
      r := if u.Ok? then Ok(Approved) else Err(Conflict);
    }

    method RejectPo(id: int, reason: string, resumeOk: bool) returns (r: Result<Status>)
      modifies this
      ensures r.Ok? <==> CanDecide(old(rows), id) && (old(rows)[id].thread.Some? ==> resumeOk)
      ensures r.Ok? ==>
        var stated := if reason == "" then None else Some(reason);
        r.value == Rejected && rows == old(rows)[id := old(rows)[id].(status := Rejected, rejectedReason := stated)]
      ensures r.Err? ==> rows == old(rows)
    {
      var snapshot := ResolvePo(id);
      if snapshot.Err? {
        return Err(snapshot.error);
      }
      if snapshot.value.thread.Some? && !resumeOk {
        return Err(ResumeFailed);
      }
      var u := UpdatePoStatus(id, Reject(reason));
      r := if u.Ok? then Ok(Rejected) else Err(Conflict);
    }
  }

  // ---- interleaved requests ----

  // Approvals through the endpoint and through an emailed token differ only in the approver.
  datatype Request = Approval(id: int, actor: string, quantity: Option<int>) | Rejection(id: int, reason: string)

  datatype Phase = Start | Fetched(snapshot: Snapshot) | Noted(snapshot: Snapshot) | Resumed(snapshot: Snapshot)
                 | Succeeded | Failed(error: Error)

  datatype World = World(rows: Table, phases: seq<Phase>)

  // One request takes its next atomic step, or someone else creates a pending order.
  datatype Event = Advance(i: nat, now: int, resumeOk: bool) | Create(id: int, quantity: int, thread: Option<string>)

  function DecisionOf(r: Request, snapshot: Snapshot, now: int): Decision {
    match r
    case Approval(_, actor, q) => Approve(actor, now, if q.Some? then q.value else snapshot.quantity)
    case Rejection(_, reason) => Reject(reason)
  }

  function Step(w: World, requests: seq<Request>, e: Event): World
    requires |w.phases| == |requests|
  {
    match e
    case Create(id, q, thread) =>
      if id in w.rows then w
      else w.(rows := w.rows[id := Order(Pending, q, thread, None, None, None, false, None)])
    case Advance(i, now, resumeOk) =>
      if i >= |requests| then w
      else
        var r := requests[i];
        match w.phases[i]
        case Start =>
          (match Resolved(w.rows, r.id)
           case Err(error) => w.(phases := w.phases[i := Failed(error)])
           case Ok(s) => w.(phases := w.phases[i := Fetched(s)]))
        case Fetched(s) =>
          World(if r.Approval? then Marked(w.rows, r.id, r.quantity) else w.rows, w.phases[i := Noted(s)])
        case Noted(s) =>
          w.(phases := w.phases[i := if s.thread.Some? && !resumeOk then Failed(ResumeFailed) else Resumed(s)])
        case Resumed(s) =>
          World(Updated(w.rows, r.id, DecisionOf(r, s, now)),
                w.phases[i := if CanDecide(w.rows, r.id) then Succeeded else Failed(Conflict)])
        case Succeeded => w
        case Failed(_) => w
  }

  function Play(w: World, requests: seq<Request>, events: seq<Event>): (z: World)
    requires |w.phases| == |requests|
    ensures |z.phases| == |requests|
  {
    if |events| == 0 then w else Step(Play(w, requests, events[..|events| - 1]), requests, events[|events| - 1])
  }

  function Fresh(rows: Table, n: nat): World {
    World(rows, seq(n, _ => Start))
  }

  predicate SameDecision(a: Order, b: Order) {
    && a.status == b.status && a.quantity == b.quantity && a.approvedBy == b.approvedBy
    && a.approvedAt == b.approvedAt && a.rejectedReason == b.rejectedReason
  }

  lemma {:induction false} PlaySplits(w: World, requests: seq<Request>, a: seq<Event>, b: seq<Event>)
    requires |w.phases| == |requests|
    ensures Play(w, requests, a + b) == Play(Play(w, requests, a), requests, b)
  {
    if |b| == 0 {
      assert a + b == a;
    } else {
      var n := |b| - 1;
      assert (a + b)[..|a| + n] == a + b[..n];
      PlaySplits(w, requests, a, b[..n]);
    }
  }

  /** Once an order has left pending approval, no later step of any request changes
      its status, quantity, approver, approval time or rejection reason. */
  lemma {:induction false} DecisionIsFinal(w: World, requests: seq<Request>, events: seq<Event>, id: int)
    requires |w.phases| == |requests| && id in w.rows && w.rows[id].status != Pending
    ensures id in Play(w, requests, events).rows && SameDecision(w.rows[id], Play(w, requests, events).rows[id])
  {
    if |events| > 0 { DecisionIsFinal(w, requests, events[..|events| - 1], id); }
  }

  ghost predicate Won(w: World, requests: seq<Request>, i: nat, id: int)
    requires |w.phases| == |requests|
  {
    i < |requests| && requests[i].id == id && w.phases[i] == Succeeded
  }

  // The row says what the winning request asked for.
  ghost predicate Reflects(row: Order, r: Request) {
    match r
    case Approval(_, actor, q) =>
      row.status == Approved && row.approvedBy == Some(actor) && row.approvedAt.Some? && (q.Some? ==> row.quantity == q.value)
    case Rejection(_, reason) =>
      row.status == Rejected && row.rejectedReason == if reason == "" then None else Some(reason)
  }

  ghost predicate Consistent(w: World, requests: seq<Request>) {
    && |w.phases| == |requests|
    && (forall i :: 0 <= i < |requests| && w.phases[i] == Succeeded ==>
          requests[i].id in w.rows && Reflects(w.rows[requests[i].id], requests[i]))
    && (forall i, j :: 0 <= i < j < |requests| && w.phases[i] == Succeeded && w.phases[j] == Succeeded ==>
          requests[i].id != requests[j].id)
  }

  // What a winning request makes of the quantity the order was pending with.
  function QuantityOf(r: Request, pending: int): int {
    if r.Approval? && r.quantity.Some? then r.quantity.value else pending
  }

  predicate Live(p: Phase) {
    p.Fetched? || p.Noted? || p.Resumed?
  }

  // While an order is pending, whatever a request has fetched of it is still current.
  ghost predicate Current(w: World, requests: seq<Request>) {
    && |w.phases| == |requests|
    && forall i :: 0 <= i < |requests| && Live(w.phases[i]) ==>
         && requests[i].id in w.rows
         && (w.rows[requests[i].id].status == Pending ==>
               w.phases[i].snapshot == Snapshot(w.rows[requests[i].id].quantity, w.rows[requests[i].id].thread))
  }

  lemma StepKeepsCurrent(w: World, requests: seq<Request>, e: Event)
    requires Current(w, requests)
    ensures Current(Step(w, requests, e), requests)
  {
  }

  /** However requests interleave, a request that has fetched an order still holds its
      present quantity and thread for as long as the order is pending. */
  lemma {:induction false} FetchedStaysCurrent(rows: Table, requests: seq<Request>, events: seq<Event>)
    ensures Current(Play(Fresh(rows, |requests|), requests, events), requests)
  {
    if |events| > 0 {
      FetchedStaysCurrent(rows, requests, events[..|events| - 1]);
      StepKeepsCurrent(Play(Fresh(rows, |requests|), requests, events[..|events| - 1]), requests, events[|events| - 1]);
    }
  }

  // An order is pending with quantity q, or was decided by a request that made of q what it asked for.
  ghost predicate Pended(w: World, requests: seq<Request>, id: int, q: int) {
    && |w.phases| == |requests| && id in w.rows
    && (w.rows[id].status == Pending ==> w.rows[id].quantity == q)
    && (forall i :: 0 <= i < |requests| && requests[i].id == id && Live(w.phases[i]) ==> w.phases[i].snapshot.quantity == q)
    && (forall i :: 0 <= i < |requests| && requests[i].id == id && w.phases[i] == Succeeded ==>
          w.rows[id].status != Pending && w.rows[id].quantity == QuantityOf(requests[i], q))
  }

  lemma StepKeepsPended(w: World, requests: seq<Request>, e: Event, id: int, q: int)
    requires Pended(w, requests, id, q)
    ensures Pended(Step(w, requests, e), requests, id, q)
  {
  }

  lemma {:induction false} PlayKeepsPended(w: World, requests: seq<Request>, events: seq<Event>, id: int, q: int)
    requires Pended(w, requests, id, q)
    ensures Pended(Play(w, requests, events), requests, id, q)
  {
    if |events| > 0 {
      PlayKeepsPended(w, requests, events[..|events| - 1], id, q);
      StepKeepsPended(Play(w, requests, events[..|events| - 1]), requests, events[|events| - 1], id, q);
    }
  }

  /** The quantity a decided order records is the winning approval's, or, when that named
      none or the order was rejected, the one the order was pending with at any time before. */
  lemma {:induction false} DecisionRecordsQuantity(rows: Table, requests: seq<Request>, a: seq<Event>, b: seq<Event>, i: nat, id: int)
    requires CanDecide(Play(Fresh(rows, |requests|), requests, a).rows, id)
    requires Won(Play(Fresh(rows, |requests|), requests, a + b), requests, i, id)
    ensures var z := Play(Fresh(rows, |requests|), requests, a + b);
      id in z.rows && z.rows[id].quantity == QuantityOf(requests[i], Play(Fresh(rows, |requests|), requests, a).rows[id].quantity)
  {
    var w := Play(Fresh(rows, |requests|), requests, a);
    FetchedStaysCurrent(rows, requests, a);
    PlayKeepsConsistent(Fresh(rows, |requests|), requests, a);
    PlaySplits(Fresh(rows, |requests|), requests, a, b);
    hide Play, Fresh;
    PlayKeepsPended(w, requests, b, id, w.rows[id].quantity);
  }

  lemma StepKeepsConsistent(w: World, requests: seq<Request>, e: Event)
    requires Consistent(w, requests)
    ensures Consistent(Step(w, requests, e), requests)
  {
  }

  lemma {:induction false} PlayKeepsConsistent(w: World, requests: seq<Request>, events: seq<Event>)
    requires Consistent(w, requests)
    ensures Consistent(Play(w, requests, events), requests)
  {
    if |events| > 0 {
      PlayKeepsConsistent(w, requests, events[..|events| - 1]);
      StepKeepsConsistent(Play(w, requests, events[..|events| - 1]), requests, events[|events| - 1]);
    }
  }

  /** In every interleaving at most one request about an order succeeds, and the
      order then records exactly that request's decision. */
  lemma {:induction false} AtMostOneDecision(rows: Table, requests: seq<Request>, events: seq<Event>, i: nat, j: nat, id: int)
    requires var z := Play(Fresh(rows, |requests|), requests, events); Won(z, requests, i, id) && Won(z, requests, j, id)
    ensures i == j
    ensures var z := Play(Fresh(rows, |requests|), requests, events); id in z.rows && Reflects(z.rows[id], requests[i])
    ensures var w := Fresh(rows, |requests|);
      forall a :: a <= events && CanDecide(Play(w, requests, a).rows, id) ==>
        Play(w, requests, events).rows[id].quantity == QuantityOf(requests[i], Play(w, requests, a).rows[id].quantity)
  {
    var w := Fresh(rows, |requests|);
    PlayKeepsConsistent(w, requests, events);
    forall a | a <= events && CanDecide(Play(w, requests, a).rows, id)
      ensures Play(w, requests, events).rows[id].quantity == QuantityOf(requests[i], Play(w, requests, a).rows[id].quantity) {
      assert events == a + events[|a|..];
      DecisionRecordsQuantity(rows, requests, a, events[|a|..], i, id);
    }
  }

  // A step that takes an order out of pending approval is a request's winning step.
  lemma LeavingPendingIsWinning(w: World, requests: seq<Request>, e: Event, id: int)
    requires |w.phases| == |requests| && id in w.rows && w.rows[id].status == Pending
    requires Step(w, requests, e).rows[id].status != Pending
    ensures e.Advance? && Won(Step(w, requests, e), requests, e.i, id)
  {
  }

  lemma {:induction false} OrdersStay(w: World, requests: seq<Request>, events: seq<Event>, id: int)
    requires |w.phases| == |requests| && id in w.rows
    ensures id in Play(w, requests, events).rows
  {
    if |events| > 0 { OrdersStay(w, requests, events[..|events| - 1], id); }
  }

  lemma SucceededStays(w: World, requests: seq<Request>, e: Event, i: nat, id: int)
    requires |w.phases| == |requests| && Won(w, requests, i, id)
    ensures Won(Step(w, requests, e), requests, i, id)
  {
  }

  /** An order that was pending and no longer is was decided by exactly one of the requests. */
  lemma {:induction false} DecisionHasOneAuthor(rows: Table, requests: seq<Request>, events: seq<Event>, id: int)
    returns (i: nat)
    requires id in rows && rows[id].status == Pending
    requires var z := Play(Fresh(rows, |requests|), requests, events); id in z.rows && z.rows[id].status != Pending
    ensures var z := Play(Fresh(rows, |requests|), requests, events);
      Won(z, requests, i, id) && (forall j :: Won(z, requests, j, id) ==> j == i)
  {
    var w := Fresh(rows, |requests|);
    var before := Play(w, requests, events[..|events| - 1]);
    var e := events[|events| - 1];
    OrdersStay(w, requests, events[..|events| - 1], id);
    if before.rows[id].status != Pending {
      i := DecisionHasOneAuthor(rows, requests, events[..|events| - 1], id);
      SucceededStays(before, requests, e, i, id);
    } else {
      LeavingPendingIsWinning(before, requests, e, id);
      i := e.i;
    }
    forall j | Won(Play(w, requests, events), requests, j, id) ensures j == i {
      AtMostOneDecision(rows, requests, events, i, j, id);
    }
  }

  /** Once one request about an order has succeeded, no other request about it ever does. */
  lemma {:induction false} LaterRequestsFail(rows: Table, requests: seq<Request>, a: seq<Event>, b: seq<Event>, i: nat, j: nat, id: int)
    requires Won(Play(Fresh(rows, |requests|), requests, a), requests, i, id) && i != j
    ensures !Won(Play(Fresh(rows, |requests|), requests, a + b), requests, j, id)
  {
    var w := Fresh(rows, |requests|);
    PlaySplits(w, requests, a, b);
    WinnerStays(Play(w, requests, a), requests, b, i, id);
    if Won(Play(w, requests, a + b), requests, j, id) {
      AtMostOneDecision(rows, requests, a + b, i, j, id);
    }
  }

  lemma {:induction false} WinnerStays(w: World, requests: seq<Request>, events: seq<Event>, i: nat, id: int)
    requires |w.phases| == |requests| && Won(w, requests, i, id)
    ensures Won(Play(w, requests, events), requests, i, id)
  {
    if |events| > 0 {
      WinnerStays(w, requests, events[..|events| - 1], i, id);
      SucceededStays(Play(w, requests, events[..|events| - 1]), requests, events[|events| - 1], i, id);
    }
  }

  // The request's order has a thread, and the request has not got past resuming it.
  ghost predicate NotResumed(w: World, requests: seq<Request>, i: nat)
    requires |w.phases| == |requests| && i < |requests|
  {
    && requests[i].id in w.rows && w.rows[requests[i].id].thread.Some?
    && !w.phases[i].Resumed? && w.phases[i] != Succeeded
    && (Live(w.phases[i]) ==> w.phases[i].snapshot.thread.Some?)
  }

  lemma StepKeepsNotResumed(w: World, requests: seq<Request>, e: Event, i: nat)
    requires |w.phases| == |requests| && i < |requests| && NotResumed(w, requests, i)
    requires e.Advance? && e.i == i ==> !e.resumeOk
    ensures NotResumed(Step(w, requests, e), requests, i)
  {
  }

  /** A request about an order with an approval thread decides nothing unless the thread resumes. */
  lemma {:induction false} NoResumeNoDecision(rows: Table, requests: seq<Request>, events: seq<Event>, i: nat)
    requires i < |requests| && requests[i].id in rows && rows[requests[i].id].thread.Some?
    requires forall k :: 0 <= k < |events| && events[k].Advance? && events[k].i == i ==> !events[k].resumeOk
    ensures NotResumed(Play(Fresh(rows, |requests|), requests, events), requests, i)
  {
    if |events| > 0 {
      var n := |events| - 1;
      NoResumeNoDecision(rows, requests, events[..n], i);
      StepKeepsNotResumed(Play(Fresh(rows, |requests|), requests, events[..n]), requests, events[n], i);
    }
  }

  // ---- the edit marks ----

  predicate SameMarks(a: Order, b: Order) {
    a.edited == b.edited && a.originalQuantity == b.originalQuantity
  }

  // Request i has fetched the order but not yet noted its quantity, which differs from
  // the decided one and is not what the marks already say.
  predicate Overwrites(w: World, requests: seq<Request>, i: nat, id: int)
    requires |w.phases| == |requests| && id in w.rows
  {
    && i < |requests| && requests[i].id == id && requests[i].Approval? && w.phases[i].Fetched?
    && requests[i].quantity.Some? && requests[i].quantity.value != w.rows[id].quantity
    && !(w.rows[id].edited && w.rows[id].originalQuantity == Some(w.rows[id].quantity))
  }

  ghost predicate MarksAreSettled(w: World, requests: seq<Request>, id: int)
    requires |w.phases| == |requests| && id in w.rows
  {
    w.rows[id].status != Pending && forall i :: !Overwrites(w, requests, i, id)
  }

  lemma StepKeepsMarks(w: World, requests: seq<Request>, e: Event, id: int)
    requires |w.phases| == |requests| && id in w.rows && MarksAreSettled(w, requests, id)
    ensures id in Step(w, requests, e).rows && SameMarks(w.rows[id], Step(w, requests, e).rows[id])
    ensures MarksAreSettled(Step(w, requests, e), requests, id)
  {
    if e.Advance? && e.i < |requests| { assert !Overwrites(w, requests, e.i, id); }
    forall i ensures !Overwrites(Step(w, requests, e), requests, i, id) { assert !Overwrites(w, requests, i, id); }
  }

  lemma {:induction false} PlayKeepsMarks(w: World, requests: seq<Request>, events: seq<Event>, id: int)
    requires |w.phases| == |requests| && id in w.rows && MarksAreSettled(w, requests, id)
    ensures id in Play(w, requests, events).rows && SameMarks(w.rows[id], Play(w, requests, events).rows[id])
    ensures MarksAreSettled(Play(w, requests, events), requests, id)
  {
    if |events| > 0 {
      PlayKeepsMarks(w, requests, events[..|events| - 1], id);
      StepKeepsMarks(Play(w, requests, events[..|events| - 1]), requests, events[|events| - 1], id);
    }
  }

  ghost predicate MarksNeverChange(w: World, requests: seq<Request>, id: int)
    requires |w.phases| == |requests| && id in w.rows
  {
    forall events :: id in Play(w, requests, events).rows && SameMarks(w.rows[id], Play(w, requests, events).rows[id])
  }

  /** The edit marks of a decided order survive everything that may still happen exactly
      when no approval that has fetched the order is about to note a different quantity
      that the marks do not record already. */
  lemma EditMarksSettleExactly(w: World, requests: seq<Request>, id: int)
    requires |w.phases| == |requests| && id in w.rows && w.rows[id].status != Pending
    ensures MarksNeverChange(w, requests, id) <==> forall i :: !Overwrites(w, requests, i, id)
  {
    if forall i :: !Overwrites(w, requests, i, id) {
      forall events ensures id in Play(w, requests, events).rows && SameMarks(w.rows[id], Play(w, requests, events).rows[id]) {
        PlayKeepsMarks(w, requests, events, id);
      }
    } else {
      var i :| Overwrites(w, requests, i, id);
      var e := [Advance(i, 0, true)];
      assert Play(w, requests, e[..0]) == w;
      assert !SameMarks(w.rows[id], Play(w, requests, e).rows[id]);
    }
  }

  /** A run in which that condition fails: a slower approval overwrites the marks after
      the order was approved by another. */
  lemma {:induction false} EditMarksMayChangeAfterDecision()
    returns (rows: Table, requests: seq<Request>, run: seq<Event>, next: Event)
    ensures var x := Play(Fresh(rows, |requests|), requests, run);
      var y := Play(Fresh(rows, |requests|), requests, run + [next]);
      && 1 in x.rows && x.rows[1].status == Approved && x.rows[1].quantity == 10 && !x.rows[1].edited
      && 1 in y.rows && y.rows[1].status == Approved && y.rows[1].quantity == 10
      && y.rows[1].edited && y.rows[1].originalQuantity == Some(10)
  {
    rows := map[1 := Order(Pending, 10, None, None, None, None, false, None)];
    requests := [Approval(1, "a", None), Approval(1, "b", Some(7))];
    var w0 := Fresh(rows, 2);
    var s := Snapshot(10, None);
    var done := Updated(rows, 1, Approve("a", 0, 10));
    var first, second := Advance(0, 0, true), Advance(1, 0, true);
    assert Step(w0, requests, first) == World(rows, [Fetched(s), Start]);
    assert Step(World(rows, [Fetched(s), Start]), requests, second) == World(rows, [Fetched(s), Fetched(s)]);
    assert Step(World(rows, [Fetched(s), Fetched(s)]), requests, first) == World(rows, [Noted(s), Fetched(s)]);
    assert Step(World(rows, [Noted(s), Fetched(s)]), requests, first) == World(rows, [Resumed(s), Fetched(s)]);
    assert Step(World(rows, [Resumed(s), Fetched(s)]), requests, first) == World(done, [Succeeded, Fetched(s)]);
    assert Step(World(done, [Succeeded, Fetched(s)]), requests, second) == World(Marked(done, 1, Some(7)), [Succeeded, Noted(s)]);
    assert Play(w0, requests, []) == w0;
    hide Step, Play, Fresh;
    run, next := [], second;
    PlayPush(w0, requests, run, first);
    run := run + [first];
    PlayPush(w0, requests, run, second);
    run := run + [second];
    PlayPush(w0, requests, run, first);
    run := run + [first];
    PlayPush(w0, requests, run, first);
    run := run + [first];
    PlayPush(w0, requests, run, first);
    run := run + [first];
    PlayPush(w0, requests, run, next);
  }

  lemma PlayPush(w: World, requests: seq<Request>, events: seq<Event>, e: Event)
    requires |w.phases| == |requests|
    ensures Play(w, requests, events + [e]) == Step(Play(w, requests, events), requests, e)
  {
    assert (events + [e])[..|events|] == events;
  }
}
