/**
 PaymentService::initiate over whole tables: however many requests start a payment for
 an order, at most one of its payments is ever Pending or Processing, and every payment
 asks for exactly the order's total.
 */
module PaymentInitiation {
  import opened Common
  import opened Lifecycle

  datatype OrderRec = OrderRec(total: nat, paymentId: Option<nat>)

  datatype PaymentRec = PaymentRec(orderId: nat, status: PaymentStatus, amount: nat)

  datatype Tables = Tables(orders: map<nat, OrderRec>, payments: map<nat, PaymentRec>, nextPayment: nat)

  predicate IsActive(s: PaymentStatus) {
    s in {Pending, Processing}
  }

  predicate HasActive(t: Tables, order: nat) {
    exists p | p in t.payments :: t.payments[p].orderId == order && IsActive(t.payments[p].status)
  }

  // The transaction: the order row locked, then the active payments checked, then the
  // payment created and linked. None when it throws.
  function InitiateTx(t: Tables, order: nat): Option<Tables> {
    if order !in t.orders || HasActive(t, order) then None
    else
      var rec := t.orders[order];
      Some(Tables(t.orders[order := rec.(paymentId := Some(t.nextPayment))],
                  t.payments[t.nextPayment := PaymentRec(order, Pending, rec.total)],
                  t.nextPayment + 1))
  }

  lemma ActiveIsOpen(s: PaymentStatus)
    ensures IsActive(s) <==> !PaymentIsTerminal(s)
  {
    match s
    case Pending =>
    case _ =>
  }

  class PaymentService {
    var orders: map<nat, OrderRec>
    var payments: map<nat, PaymentRec>
    var nextPayment: nat

    ghost function State(): Tables
      reads this
    {
      Tables(orders, payments, nextPayment)
    }

    method Initiate(order: nat) returns (created: Option<nat>)
      modifies this
      ensures match InitiateTx(old(State()), order)
              case Some(t) => State() == t && created == Some(old(nextPayment))
              case None => State() == old(State()) && created == None
      ensures created.None? <==>
                order !in old(orders) ||
                exists p | p in old(payments) :: old(payments)[p].orderId == order && !PaymentIsTerminal(old(payments)[p].status)
      ensures created.Some? ==>
                && payments == old(payments)[created.value := PaymentRec(order, Pending, old(orders)[order].total)]
                && orders == old(orders)[order := OrderRec(old(orders)[order].total, created)]
    {
      forall s { ActiveIsOpen(s); }
      hide IsActive, PaymentIsTerminal;
      if order !in orders {
        return None;
      }
      var locked := orders[order];
      var active := exists p | p in payments :: payments[p].orderId == order && IsActive(payments[p].status);
      if active {
        return None;
      }
      var payment := PaymentRec(order, Pending, locked.total);
      created := Some(nextPayment);
      payments := payments[nextPayment := payment];
      orders := orders[order := locked.(paymentId := created)];
      nextPayment := nextPayment + 1;
    }
  }

  // Orders appear, payments are started and move as their transition table allows.
  datatype Action =
    | NewOrder(id: nat, total: nat)
    | Initiate(order: nat)
    | Move(payment: nat, to: PaymentStatus)

  function Apply(t: Tables, a: Action): Tables {
    match a
    case NewOrder(id, total) =>
      if id in t.orders then t else t.(orders := t.orders[id := OrderRec(total, None)])
    case Initiate(order) =>
      InitiateTx(t, order).GetOr(t)
    case Move(p, to) =>
      if p in t.payments && PaymentCanMove(t.payments[p].status, to)
      then t.(payments := t.payments[p := t.payments[p].(status := to)])
      else t
  }

  function ApplyAll(actions: seq<Action>): Tables
    decreases |actions|
  {
    if actions == [] then Tables(map[], map[], 1)
    else Apply(ApplyAll(actions[..|actions| - 1]), actions[|actions| - 1])
  }

  ghost predicate PaymentOk(t: Tables, p: nat)
    requires p in t.payments
  {
    var rec := t.payments[p];
    p < t.nextPayment && rec.orderId in t.orders && rec.amount == t.orders[rec.orderId].total
  }

  ghost predicate Good(t: Tables) {
    && (forall p :: p in t.payments ==> PaymentOk(t, p))
    && (forall o :: o in t.orders && t.orders[o].paymentId.Some? ==>
          var p := t.orders[o].paymentId.value; p in t.payments && t.payments[p].orderId == o)
    && OneActive(t)
  }

  ghost predicate OneActive(t: Tables) {
    forall p, q | p in t.payments && q in t.payments && t.payments[p].orderId == t.payments[q].orderId ::
      IsActive(t.payments[p].status) && IsActive(t.payments[q].status) ==> p == q
  }

  lemma {:induction false} NeverTwoActivePayments(actions: seq<Action>)
    ensures Good(ApplyAll(actions))
    decreases |actions|
  {
    if actions != [] {
      NeverTwoActivePayments(actions[..|actions| - 1]);
    }
  }

  // The linked payment is the newest one, and an active payment is always the linked
  // one: nothing the gateway still works on has been lost sight of.
  lemma {:induction false} ActiveIsLinked(actions: seq<Action>, p: nat)
    requires p in ApplyAll(actions).payments && IsActive(ApplyAll(actions).payments[p].status)
    ensures var t := ApplyAll(actions);
            t.payments[p].orderId in t.orders && t.orders[t.payments[p].orderId].paymentId == Some(p)
    decreases |actions|
  {
    NeverTwoActivePayments(actions);
    if actions != [] {
      var front, last := actions[..|actions| - 1], actions[|actions| - 1];
      NeverTwoActivePayments(front);
      var t0 := ApplyAll(front);
      if p in t0.payments {
        assert IsActive(t0.payments[p].status);
        ActiveIsLinked(front, p);
        if last.Initiate? && last.order == t0.payments[p].orderId {
          assert HasActive(t0, last.order);
        }
      }
    }
  }
}
