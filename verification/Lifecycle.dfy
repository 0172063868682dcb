/**
 The two status enums and their transition tables. The lifecycle of an order is a
 directed graph without cycles; everything the settlement proofs need about stale
 copies of an order comes from that.
 */
module Lifecycle {

  datatype OrderStatus =
    | PendingPayment
    | Paid
    | Accepted
    | InProgress
    | Ready
    | Completed
    | Cancelled
    | PaymentFailed
    | Refunded

  datatype PaymentStatus = Pending | Processing | Completed | Failed

  predicate OrderCanMove(from: OrderStatus, to: OrderStatus) {
    match from
    case PendingPayment => to in {Paid, PaymentFailed}
    case Paid => to in {Accepted, Cancelled}
    case Accepted => to in {InProgress, Cancelled}
    case InProgress => to in {Ready, Cancelled}
    case Ready => to in {OrderStatus.Completed, Cancelled}
    case Cancelled => to == Refunded
    case _ => false
  }

  predicate PaymentCanMove(from: PaymentStatus, to: PaymentStatus) {
    match from
    case Pending => to in {Processing, Failed}
    case Processing => to in {PaymentStatus.Completed, Failed}
    case _ => false
  }

  predicate PaymentIsTerminal(s: PaymentStatus) {
    s in {PaymentStatus.Completed, Failed}
  }

  predicate IsSalesStatus(s: OrderStatus) {
    s in {Paid, Accepted, InProgress, Ready, OrderStatus.Completed}
  }

  // What the kitchen can set.
  predicate IsKitchenStatus(s: OrderStatus) {
    s in {Accepted, InProgress, Ready, OrderStatus.Completed, Cancelled}
  }

  // The statuses of an order whose money has been taken: the sales statuses and
  // what a taken order can still become.
  predicate IsPaidFamily(s: OrderStatus) {
    IsSalesStatus(s) || s in {Cancelled, Refunded}
  }

  const LINE := [PendingPayment, Paid, Accepted, InProgress, Ready, OrderStatus.Completed]

  // The table in words: one step along the line at a time, off it to Cancelled from
  // whatever has been paid and not completed, from there to Refunded, and to PaymentFailed
  // from the start only.
  lemma MovesMeaning(from: OrderStatus, to: OrderStatus)
    ensures OrderCanMove(from, to) <==>
            || (exists i :: 0 < i < |LINE| && LINE[i - 1] == from && LINE[i] == to)
            || (to == Cancelled && exists i :: 0 < i < |LINE| - 1 && LINE[i] == from)
            || (from == Cancelled && to == Refunded)
            || (from == PendingPayment && to == PaymentFailed)
  {
    assert LINE[0] == PendingPayment && LINE[1] == Paid && LINE[2] == Accepted;
    assert LINE[3] == InProgress && LINE[4] == Ready && LINE[5] == OrderStatus.Completed;
  }

  // A payment that is not final can fail; it is completed from Processing only, which it
  // reaches from Pending.
  lemma PaymentMovesMeaning(from: PaymentStatus, to: PaymentStatus)
    ensures PaymentCanMove(from, to) <==>
            || (!PaymentIsTerminal(from) && to == Failed)
            || (from == Pending && to == Processing)
            || (from == Processing && to == PaymentStatus.Completed)
  {
  }

  // The kitchen sets whatever an order can become once paid, except by a refund.
  lemma KitchenStatusMeaning(s: OrderStatus)
    ensures IsKitchenStatus(s) <==> s !in {PendingPayment, Paid, PaymentFailed, Refunded}
  {
    match s
    case PendingPayment =>
    case _ =>
  }

  // Moves from `from` to `to` in zero or more steps; `ReachesIsClosure` ties the
  // table to `OrderCanMove`.
  predicate Reaches(from: OrderStatus, to: OrderStatus) {
    from == to ||
    match from
    case PendingPayment => true
    case Paid => to in {Accepted, InProgress, Ready, OrderStatus.Completed, Cancelled, Refunded}
    case Accepted => to in {InProgress, Ready, OrderStatus.Completed, Cancelled, Refunded}
    case InProgress => to in {Ready, OrderStatus.Completed, Cancelled, Refunded}
    case Ready => to in {OrderStatus.Completed, Cancelled, Refunded}
    case Cancelled => to == Refunded
    case _ => false
  }

  lemma ReachesStep(a: OrderStatus, b: OrderStatus, c: OrderStatus)
    requires OrderCanMove(b, c)
    ensures Reaches(a, b) ==> Reaches(a, c)
    ensures !Reaches(c, b)
  {
  }

  predicate IsPath(p: seq<OrderStatus>) {
    p != [] && forall i :: 0 < i < |p| ==> OrderCanMove(p[i - 1], p[i])
  }

  lemma {:induction false} PathReaches(p: seq<OrderStatus>, i: nat, j: nat)
    requires IsPath(p) && i <= j < |p|
    ensures Reaches(p[i], p[j])
    decreases j - i
  {
    if i < j {
      PathReaches(p, i, j - 1);
      assert OrderCanMove(p[j - 1], p[j]);
    }
  }

  // The table lists exactly the pairs joined by a path of permitted moves.
  lemma ReachesIsClosure(from: OrderStatus, to: OrderStatus)
    ensures Reaches(from, to) <==> exists p :: IsPath(p) && p[0] == from && p[|p| - 1] == to
  {
    if Reaches(from, to) {
      var p := PathTo(from, to);
      assert IsPath(p) && p[0] == from && p[|p| - 1] == to;
    }
    if p :| IsPath(p) && p[0] == from && p[|p| - 1] == to {
      PathReaches(p, 0, |p| - 1);
    }
  }

  // One path for each reachable pair: along the kitchen line, then off it.
  ghost function PathTo(from: OrderStatus, to: OrderStatus): (p: seq<OrderStatus>)
    requires Reaches(from, to)
    ensures IsPath(p) && p[0] == from && p[|p| - 1] == to
    decreases Rank(to)
  {
    if from == to then [from]
    else
      var before := if OrderCanMove(from, to) then from else Before(to);
      PathTo(from, before) + [to]
  }

  // Some status that can move to `to` in one step and is nearest to it.
  ghost function Before(to: OrderStatus): OrderStatus {
    match to
    case Paid => PendingPayment
    case PaymentFailed => PendingPayment
    case Accepted => Paid
    case InProgress => Accepted
    case Ready => InProgress
    case Completed => Ready
    case Cancelled => Paid
    case Refunded => Cancelled
    case PendingPayment => PendingPayment
  }

  ghost function Rank(s: OrderStatus): nat {
    match s
    case PendingPayment => 0
    case Paid => 1
    case PaymentFailed => 1
    case Accepted => 2
    case InProgress => 3
    case Ready => 4
    case Completed => 5
    case Cancelled => 5
    case Refunded => 6
  }

  // An order never comes back to a status it has left: no path visits one twice.
  lemma PathVisitsOnce(p: seq<OrderStatus>, i: nat, j: nat)
    requires IsPath(p) && i < j < |p|
    ensures p[i] != p[j]
  {
    PathReaches(p, i, j - 1);
    assert OrderCanMove(p[j - 1], p[j]);
  }

  // Taken orders are exactly those that have been Paid on the way.
  lemma PaidFamilyPassedPaid(p: seq<OrderStatus>)
    requires IsPath(p) && p[0] == PendingPayment
    ensures IsPaidFamily(p[|p| - 1]) <==> Paid in p
  {
    if |p| > 1 {
      assert OrderCanMove(p[0], p[1]);
      PathReaches(p, 1, |p| - 1);
    }
    if Paid in p {
      var i :| 0 <= i < |p| && p[i] == Paid;
      PathReaches(p, i, |p| - 1);
    }
  }

  // Sales are the orders that have been paid and not cancelled.
  lemma SalesArePaidAndKept(p: seq<OrderStatus>)
    requires IsPath(p) && p[0] == PendingPayment
    ensures IsSalesStatus(p[|p| - 1]) <==> Paid in p && Cancelled !in p
  {
    PaidFamilyPassedPaid(p);
    if Cancelled in p {
      var i :| 0 <= i < |p| && p[i] == Cancelled;
      PathReaches(p, i, |p| - 1);
    }
    if p[|p| - 1] == Refunded {
      assert OrderCanMove(p[|p| - 2], p[|p| - 1]);
      assert p[|p| - 2] in p;
    }
  }
}
