/**
 The settlement code in its own form: model objects over shared rows, services that
 change them inside transactions. Every method is proved against the transaction
 functions of `SettlementRows`, which the protocol interleaves.

 A transaction that throws is a branch that puts the stored rows back; what the model
 objects hold in memory is not put back. `now` parameters are clock readings, `...Fails`
 parameters are database failures.
 */
module SettlementModels {
  import opened Common
  import opened Lifecycle
  import opened SettlementRows

  // The stored rows of one order and its payment, the webhook log row at hand, and the
  // events dispatched so far.
  class Database {
    var order: OrderRow
    var payment: PaymentRow
    var logProcessed: bool
    var dispatched: seq<Event>

    constructor (order: OrderRow, payment: PaymentRow)
      ensures Stored() == SettlementRows.Rows(order, payment) && !logProcessed && dispatched == []
    {
      this.order, this.payment, logProcessed, dispatched := order, payment, false, [];
    }

    function Stored(): Rows
      reads this
    {
      SettlementRows.Rows(order, payment)
    }
  }

  // An Order model object: the columns as loaded and as they are now.
  class Order {
    const db: Database
    var loaded: OrderRow
    var current: OrderRow

    constructor (db: Database)
      ensures this.db == db && Valid() && loaded == db.order
    {
      this.db, loaded, current := db, db.order, db.order;
    }

    // Nothing is left unsaved between calls.
    ghost predicate Valid()
      reads this
    {
      current == loaded
    }

    method TransitionTo(s: OrderStatus, now: nat) returns (ok: bool)
      requires Valid()
      modifies this, db`order
      ensures Valid()
      ensures match OrderTo(old(db.order), old(loaded), s, now)
              case Some(o) => ok && db.order == o && loaded == Enter(old(loaded), s, now)
              case None => !ok && db.order == old(db.order) && loaded == old(loaded)
    {
      var locked := db.order;
      if !OrderCanMove(locked.status, s) {
        return false;
      }
      current := current.(status := s);
      if HasStamp(s) {
        current := current.(at := current.at[s := now]);
      }
      db.order := SaveDirty(db.order, loaded, current);
      loaded := current;
      ok := true;
    }
  }

  class Payment {
    const db: Database
    var attributes: PaymentRow

    constructor (db: Database)
      ensures this.db == db && attributes == db.payment
    {
      this.db, attributes := db, db.payment;
    }

    method TransitionTo(s: PaymentStatus) returns (ok: bool)
      modifies this, db`payment
      ensures match PaymentTo(old(db.payment), s)
              case Some(p) => ok && db.payment == p && attributes == p
              case None => !ok && db.payment == old(db.payment) && attributes == old(attributes)
    {
      var locked := db.payment;
      if locked.status == s {
        attributes := locked;
        return true;
      }
      if !PaymentCanMove(locked.status, s) {
        return false;
      }
      locked := locked.(status := s);
      db.payment := locked;
      attributes := locked;
      ok := true;
    }

    method Refresh()
      modifies this
      ensures attributes == db.payment
    {
      attributes := db.payment;
    }
  }

  ghost predicate Outcome(tx: TxResult, before: Rows, after: Rows, ok: bool) {
    match tx
    case Committed(rows, _) => ok && after == rows
    case Aborted => !ok && after == before
  }

  // ----- HandlesFincodePaymentErrors -----

  // The transaction of completePaymentWithOrder, and the captured branch of confirm.
  method CompleteTogether(payment: Payment, order: Order, now: nat, dbFails: bool) returns (ok: bool)
    requires payment.db == order.db && order.Valid()
    modifies payment, order, order.db
    ensures order.Valid() && order.db.logProcessed == old(order.db.logProcessed)
    ensures order.db.dispatched == old(order.db.dispatched)
    ensures Outcome(if dbFails then Aborted else CompleteWithOrder(old(order.db.Stored()), old(order.loaded), now),
                    old(order.db.Stored()), order.db.Stored(), ok)
  {
    var db := order.db;
    var savedOrder, savedPayment := db.order, db.payment;
    ok := payment.TransitionTo(PaymentStatus.Completed);
    if ok {
      ok := order.TransitionTo(Paid, now);
    }
    if !ok || dbFails {
      db.order, db.payment := savedOrder, savedPayment;
      ok := false;
    }
  }

  // The transaction of failPaymentWithOrder, and the failing branch of confirm.
  method FailTogether(payment: Payment, order: Order, dbFails: bool) returns (ok: bool)
    requires payment.db == order.db && order.Valid()
    modifies payment, order, order.db
    ensures order.Valid() && order.db.logProcessed == old(order.db.logProcessed)
    ensures order.db.dispatched == old(order.db.dispatched)
    ensures Outcome(if dbFails then Aborted else FailWithOrder(old(order.db.Stored()), old(order.loaded)),
                    old(order.db.Stored()), order.db.Stored(), ok)
  {
    var db := order.db;
    var savedOrder, savedPayment := db.order, db.payment;
    ok := payment.TransitionTo(Failed);
    if ok {
      ok := order.TransitionTo(PaymentFailed, 0);
    }
    if !ok || dbFails {
      db.order, db.payment := savedOrder, savedPayment;
      ok := false;
    }
  }

  // The event follows the commit.
  method CompletePaymentWithOrder(payment: Payment, order: Order, now: nat, dbFails: bool) returns (ok: bool)
    requires payment.db == order.db && order.Valid()
    modifies payment, order, order.db
    ensures order.Valid() && order.db.logProcessed == old(order.db.logProcessed)
    ensures Outcome(if dbFails then Aborted else CompleteWithOrder(old(order.db.Stored()), old(order.loaded), now),
                    old(order.db.Stored()), order.db.Stored(), ok)
    ensures order.db.dispatched == old(order.db.dispatched) + if ok then [CompletedEvent] else []
  {
    ok := CompleteTogether(payment, order, now, dbFails);
    if ok {
      order.db.dispatched := order.db.dispatched + [CompletedEvent];
    }
  }

  method FailPaymentWithOrder(payment: Payment, order: Order, dbFails: bool) returns (ok: bool)
    requires payment.db == order.db && order.Valid()
    modifies payment, order, order.db
    ensures order.Valid() && order.db.logProcessed == old(order.db.logProcessed)
    ensures Outcome(if dbFails then Aborted else FailWithOrder(old(order.db.Stored()), old(order.loaded)),
                    old(order.db.Stored()), order.db.Stored(), ok)
    ensures order.db.dispatched == old(order.db.dispatched) + if ok then [FailedEvent] else []
  {
    ok := FailTogether(payment, order, dbFails);
    if ok {
      order.db.dispatched := order.db.dispatched + [FailedEvent];
    }
  }

  // markPaymentAndOrderAsFailed run without interference: the combined transaction,
  // then the two fallback writes, each of which may fail.
  function MarkedAsFailed(r: Rows, txFails: bool, paymentFails: bool, orderFails: bool): Rows {
    if !txFails && FailBoth(r).Committed? then FailBoth(r).rows
    else
      var p := if PaymentIsTerminal(r.payment.status) || paymentFails then r.payment else r.payment.(status := Failed);
      var o := if r.order.status != PendingPayment || orderFails then r.order else Enter(r.order, PaymentFailed, 0);
      Rows(o, p)
  }

  method MarkPaymentAndOrderAsFailed(payment: Payment, txFails: bool, paymentFails: bool, orderFails: bool)
    requires RowOk(payment.db.order)
    modifies payment, payment.db
    ensures payment.db.Stored() == MarkedAsFailed(old(payment.db.Stored()), txFails, paymentFails, orderFails)
    ensures payment.db.dispatched == old(payment.db.dispatched)
  {
    var db := payment.db;
    var savedOrder, savedPayment := db.order, db.payment;
    var ok := payment.TransitionTo(Failed);
    if ok {
      var order := new Order(db);
      if order.current.status == PendingPayment {
        ok := order.TransitionTo(PaymentFailed, 0);
      }
    }
    if ok && !txFails {
      return;
    }
    db.order, db.payment := savedOrder, savedPayment;
    payment.Refresh();
    if !PaymentIsTerminal(payment.attributes.status) && !paymentFails {
      var _ := payment.TransitionTo(Failed);
    }
    var order := new Order(db);
    if order.current.status == PendingPayment && !orderFails {
      StaleSave(db.order, order.loaded, PaymentFailed, 0);
      var _ := order.TransitionTo(PaymentFailed, 0);
    }
  }

  // Rows in agreement stay so under every combination of failures except one: the
  // order's fallback write succeeding after the payment's failed on its own.
  lemma MarkedAsFailedAgrees(r: Rows, txFails: bool, paymentFails: bool, orderFails: bool)
    requires Agree(r, false, false)
    ensures (exists split :: Agree(MarkedAsFailed(r, txFails, paymentFails, orderFails), split, false)) <==>
            !(r.order.status == PendingPayment && txFails && paymentFails && !orderFails)
    ensures !txFails && r.order.status == PendingPayment ==>
              var r' := MarkedAsFailed(r, txFails, paymentFails, orderFails);
              r'.payment.status == Failed && r'.order.status == PaymentFailed
  {
    FailBothMeaning(r, false, false);
    var r' := MarkedAsFailed(r, txFails, paymentFails, orderFails);
    if r.order.status == PendingPayment {
      EnterOk(r.order, PaymentFailed, 0);
      if !(txFails && paymentFails && !orderFails) {
        assert Agree(r', true, false);
      }
    } else {
      assert Agree(r', false, false);
    }
  }

  // ----- WebhookService -----

  class WebhookService {
    const db: Database

    constructor (db: Database)
      ensures this.db == db
    {
      this.db := db;
    }

    // `ok` is false when the transaction threw; `fires`: PaymentCompleted has been dispatched.
    method HandlePaymentCompleted(paid: nat, accepted: nat) returns (ok: bool, fires: bool)
      modifies db
      ensures Outcome(WebhookCompleted(old(db.Stored()), paid, accepted), old(db.Stored()), db.Stored(), ok)
      ensures db.logProcessed == (old(db.logProcessed) || ok)
      ensures fires == (ok && WebhookCompleted(old(db.Stored()), paid, accepted).fires)
      ensures db.dispatched == old(db.dispatched) + if fires then [CompletedEvent] else []
    {
      var savedOrder, savedPayment := db.order, db.payment;
      ok, fires := true, false;
      var payment := new Payment(db);
      if payment.attributes.status != PaymentStatus.Completed {
        ok := payment.TransitionTo(PaymentStatus.Completed);
        fires := true;
      }
      if ok {
        ok := AdvanceOrder(paid, accepted);
      }
      if ok {
        db.logProcessed := true;
      } else {
        db.order, db.payment := savedOrder, savedPayment;
        fires := false;
      }
      if fires {
        db.dispatched := db.dispatched + [CompletedEvent];
      }
    }

    method AdvanceOrder(paid: nat, accepted: nat) returns (ok: bool)
      modifies db`order
      ensures ok == Advanced(old(db.order), paid, accepted).Some?
      ensures ok ==> db.order == Advanced(old(db.order), paid, accepted).value
    {
      SaveFresh(db.order, Enter(db.order, Paid, paid));
      hide OrderCanMove, SaveDirty;
      ok := true;
      var order := new Order(db);
      if order.current.status == PendingPayment {
        ok := order.TransitionTo(Paid, paid);
      }
      if ok && order.current.status == Paid {
        ok := order.TransitionTo(Accepted, accepted);
      }
    }

    // Neither guard can refuse here: the handler always commits.
    method HandlePaymentFailed() returns (fires: bool)
      modifies db
      ensures WebhookFailed(old(db.Stored())) == Committed(db.Stored(), fires)
      ensures db.logProcessed
      ensures db.dispatched == old(db.dispatched) + if fires then [FailedEvent] else []
    {
      var payment := new Payment(db);
      fires := !PaymentIsTerminal(payment.attributes.status);
      if fires {
        var ok := payment.TransitionTo(Failed);
        assert ok;
      }
      var order := new Order(db);
      if order.current.status == PendingPayment {
        var ok := order.TransitionTo(PaymentFailed, 0);
        assert ok;
      }
      db.logProcessed := true;
      if fires {
        db.dispatched := db.dispatched + [FailedEvent];
      }
    }

    method HandlePaymentRefunded() returns (fires: bool)
      modifies db
      ensures WebhookRefunded(old(db.Stored())) == Committed(db.Stored(), fires)
      ensures db.logProcessed && db.dispatched == old(db.dispatched)
    {
      fires := false;
      var order := new Order(db);
      if order.current.status == Cancelled {
        var ok := order.TransitionTo(Refunded, 0);
        assert ok;
      }
      db.logProcessed := true;
    }
  }
}
