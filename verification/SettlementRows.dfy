/**
 The order and payment rows, the way Eloquent writes them, and every database
 transaction of the settlement protocol as a function of the two rows. A
 transaction either commits new rows or aborts and leaves nothing behind.

 The timestamp columns `paid_at` .. `cancelled_at` are one map keyed by the status
 they belong to.
 */
module SettlementRows {
  import opened Common
  import opened Lifecycle

  datatype OrderRow = OrderRow(status: OrderStatus, at: map<OrderStatus, nat>, total: nat)

  // `refs` stands for the gateway columns (fincode_id, access_id, tds_*).
  datatype PaymentRow = PaymentRow(status: PaymentStatus, amount: nat, refs: nat)

  datatype Rows = Rows(order: OrderRow, payment: PaymentRow)

  // PaymentCompleted and PaymentFailed.
  datatype Event = CompletedEvent | FailedEvent

  // `fires`: the handler dispatches an event once the transaction has committed.
  datatype TxResult = Committed(rows: Rows, fires: bool) | Aborted

  // ----- one row -----

  predicate HasStamp(s: OrderStatus) {
    s in {Paid, Accepted, InProgress, Ready, OrderStatus.Completed, Cancelled}
  }

  // The row after entering `s` at time `t`.
  function Enter(row: OrderRow, s: OrderStatus, t: nat): OrderRow {
    row.(status := s, at := if HasStamp(s) then row.at[s := t] else row.at)
  }

  lemma StampedStatuses(s: OrderStatus)
    ensures HasStamp(s) <==> s !in {PendingPayment, PaymentFailed, Refunded}
  {
    match s
    case PendingPayment =>
    case _ =>
  }

  // Which statuses have a timestamp, and that entering one dates it and no other.
  lemma EnterMeaning(row: OrderRow, s: OrderStatus, t: nat)
    ensures s in {Paid, Accepted, InProgress, Ready, OrderStatus.Completed, Cancelled} ==>
              Enter(row, s, t) == OrderRow(s, row.at[s := t], row.total)
    ensures s in {PendingPayment, PaymentFailed, Refunded} ==> Enter(row, s, t) == OrderRow(s, row.at, row.total)
  {
  }

  // `save()` on a model object: columns whose value differs from the one loaded are
  // written, every other column of the stored row keeps what it holds.
  function SaveDirty(stored: OrderRow, loaded: OrderRow, current: OrderRow): OrderRow {
    var dirty := map k | k in current.at && (k !in loaded.at || loaded.at[k] != current.at[k]) :: current.at[k];
    OrderRow(
      if current.status != loaded.status then current.status else stored.status,
      stored.at + dirty,
      if current.total != loaded.total then current.total else stored.total)
  }

  // Saving a fresh object stores it as it is; no column is ever cleared here.
  lemma SaveFresh(row: OrderRow, current: OrderRow)
    requires row.at.Keys <= current.at.Keys
    ensures SaveDirty(row, row, current) == current
  {
    assert SaveDirty(row, row, current).at == current.at;
  }

  function SavePaymentDirty(stored: PaymentRow, loaded: PaymentRow, current: PaymentRow): PaymentRow {
    PaymentRow(
      if current.status != loaded.status then current.status else stored.status,
      if current.amount != loaded.amount then current.amount else stored.amount,
      if current.refs != loaded.refs then current.refs else stored.refs)
  }

  // Order::transitionTo: the guard reads the locked row, the write goes through the
  // caller's own, possibly stale, object.
  function OrderTo(stored: OrderRow, copy: OrderRow, s: OrderStatus, t: nat): Option<OrderRow> {
    if OrderCanMove(stored.status, s) then Some(SaveDirty(stored, copy, Enter(copy, s, t))) else None
  }

  // Payment::transitionTo: the same status is a no-op, and the write goes through the
  // locked row itself.
  function PaymentTo(stored: PaymentRow, s: PaymentStatus): Option<PaymentRow> {
    if stored.status == s then Some(stored)
    else if PaymentCanMove(stored.status, s) then Some(stored.(status := s))
    else None
  }

  // ----- stale copies -----

  // What holds of every order row this system ever stores.
  ghost predicate RowOk(row: OrderRow) {
    && (forall k :: k in row.at ==> HasStamp(k) && Reaches(k, row.status))
    && (IsPaidFamily(row.status) ==> Paid in row.at)
  }

  // `copy` is the row as it once was.
  ghost predicate Precedes(copy: OrderRow, row: OrderRow) {
    && Reaches(copy.status, row.status)
    && copy.total == row.total
    && (forall k :: k in copy.at ==> k in row.at && row.at[k] == copy.at[k])
    && (copy.status == row.status ==> copy == row)
  }

  lemma PrecedesTransitive(a: OrderRow, b: OrderRow, c: OrderRow)
    requires Precedes(a, b) && Precedes(b, c)
    ensures Precedes(a, c)
  {
  }

  // However stale the caller's object is, a permitted transition leaves exactly the
  // row that entering the status on the locked row would leave. This rests on the
  // dirty-column write and on orders never returning to a status.
  lemma StaleSave(stored: OrderRow, copy: OrderRow, s: OrderStatus, t: nat)
    requires RowOk(stored) && Precedes(copy, stored)
    ensures OrderTo(stored, copy, s, t) ==
            if OrderCanMove(stored.status, s) then Some(Enter(stored, s, t)) else None
    ensures OrderCanMove(stored.status, s) ==>
              RowOk(Enter(stored, s, t)) && Precedes(stored, Enter(stored, s, t))
  {
    if OrderCanMove(stored.status, s) {
      EnterOk(stored, s, t);
      ReachesStep(copy.status, stored.status, s);
      hide Reaches, OrderCanMove;
      assert SaveDirty(stored, copy, Enter(copy, s, t)).at == Enter(stored, s, t).at;
    }
  }

  lemma EnterOk(row: OrderRow, s: OrderStatus, t: nat)
    requires RowOk(row) && OrderCanMove(row.status, s)
    ensures s !in row.at && s != row.status
    ensures RowOk(Enter(row, s, t)) && Precedes(row, Enter(row, s, t))
  {
    forall k ensures (Reaches(k, row.status) ==> Reaches(k, s)) && !Reaches(s, row.status) {
      ReachesStep(k, row.status, s);
    }
    hide Reaches;
  }

  // Writing all columns instead of the dirty ones would lose a timestamp: the
  // kitchen cancels through an object loaded while the order was still Paid.
  lemma FullSaveLosesTimestamp()
    ensures
      var loaded := OrderRow(Paid, map[Paid := 1], 500);
      var stored := OrderRow(Accepted, map[Paid := 1, Accepted := 2], 500);
      && Precedes(loaded, stored) && RowOk(stored)
      && Accepted !in Enter(loaded, Cancelled, 3).at
      && OrderTo(stored, loaded, Cancelled, 3) ==
         Some(OrderRow(Cancelled, map[Paid := 1, Accepted := 2, Cancelled := 3], 500))
  {
    var loaded := OrderRow(Paid, map[Paid := 1], 500);
    var stored := OrderRow(Accepted, map[Paid := 1, Accepted := 2], 500);
    StaleSave(stored, loaded, Cancelled, 3);
  }

  // ----- transactions over both rows -----

  // PayPayPaymentService::confirm and completePaymentWithOrder.
  function CompleteWithOrder(r: Rows, copy: OrderRow, t: nat): TxResult {
    match PaymentTo(r.payment, PaymentStatus.Completed)
    case None => Aborted
    case Some(p) =>
      match OrderTo(r.order, copy, Paid, t)
      case None => Aborted
      case Some(o) => Committed(Rows(o, p), true)
  }

  // PayPayPaymentService::confirm and failPaymentWithOrder.
  function FailWithOrder(r: Rows, copy: OrderRow): TxResult {
    match PaymentTo(r.payment, Failed)
    case None => Aborted
    case Some(p) =>
      match OrderTo(r.order, copy, PaymentFailed, 0)
      case None => Aborted
      case Some(o) => Committed(Rows(o, p), true)
  }

  // The combined transaction of markPaymentAndOrderAsFailed, which re-reads the order.
  function FailBoth(r: Rows): TxResult {
    match PaymentTo(r.payment, Failed)
    case None => Aborted
    case Some(p) =>
      if r.order.status != PendingPayment then Committed(r.(payment := p), false)
      else
        match OrderTo(r.order, r.order, PaymentFailed, 0)
        case None => Aborted
        case Some(o) => Committed(Rows(o, p), false)
  }

  // WebhookService::handlePaymentCompleted; `paid` and `accepted` are the two clock
  // readings taken inside the transaction.
  function WebhookCompleted(r: Rows, paid: nat, accepted: nat): TxResult {
    var fires := r.payment.status != PaymentStatus.Completed;
    match (if fires then PaymentTo(r.payment, PaymentStatus.Completed) else Some(r.payment))
    case None => Aborted
    case Some(p) =>
      match Advanced(r.order, paid, accepted)
      case None => Aborted
      case Some(o) => Committed(Rows(o, p), fires)
  }

  // The order's share of it: on to Paid, then on to Accepted.
  function Advanced(order: OrderRow, paid: nat, accepted: nat): Option<OrderRow> {
    match (if order.status == PendingPayment then OrderTo(order, order, Paid, paid) else Some(order))
    case None => None
    case Some(o) => if o.status == Paid then OrderTo(o, o, Accepted, accepted) else Some(o)
  }

  // WebhookService::handlePaymentFailed.
  function WebhookFailed(r: Rows): TxResult {
    var fires := !PaymentIsTerminal(r.payment.status);
    match (if fires then PaymentTo(r.payment, Failed) else Some(r.payment))
    case None => Aborted
    case Some(p) =>
      match (if r.order.status == PendingPayment then OrderTo(r.order, r.order, PaymentFailed, 0) else Some(r.order))
      case None => Aborted
      case Some(o) => Committed(Rows(o, p), fires)
  }

  // WebhookService::handlePaymentRefunded.
  function WebhookRefunded(r: Rows): TxResult {
    if r.order.status != Cancelled then Committed(r, false)
    else
      match OrderTo(r.order, r.order, Refunded, 0)
      case None => Aborted
      case Some(o) => Committed(r.(order := o), false)
  }

  // ----- agreement of the two rows -----

  // `split`: some fallback has written the payment on its own. `lost`: some fallback's
  // payment write has failed on its own, so that its order write may have gone ahead.
  ghost predicate Agree(r: Rows, split: bool, lost: bool) {
    && (IsPaidFamily(r.order.status) ==> r.payment.status == PaymentStatus.Completed)
    && (r.payment.status == PaymentStatus.Completed ==>
          IsPaidFamily(r.order.status) || (lost && r.order.status == PaymentFailed))
    && (r.order.status == PaymentFailed ==> r.payment.status == Failed || lost)
    && (r.payment.status == Failed ==>
          r.order.status == PaymentFailed || (split && r.order.status == PendingPayment))
    && r.payment.amount == r.order.total
    && RowOk(r.order)
  }

  // How the rows may move in one committed transaction.
  ghost predicate Evolves(r: Rows, r': Rows) {
    && Precedes(r.order, r'.order)
    && (PaymentIsTerminal(r.payment.status) ==> r'.payment.status == r.payment.status)
  }

  // What each transaction does to rows in agreement, the stale copy gone.
  lemma CompleteMeaning(r: Rows, split: bool, lost: bool, copy: OrderRow, t: nat)
    requires Agree(r, split, lost) && Precedes(copy, r.order)
    ensures CompleteWithOrder(r, copy, t) ==
            if r.payment.status == Processing && r.order.status == PendingPayment
            then Committed(Rows(Enter(r.order, Paid, t), r.payment.(status := PaymentStatus.Completed)), true)
            else Aborted
    ensures CompleteWithOrder(r, copy, t).Committed? ==>
              var r' := CompleteWithOrder(r, copy, t).rows; Agree(r', split, lost) && Evolves(r, r')
  {
    StaleSave(r.order, copy, Paid, t);
  }

  lemma FailMeaning(r: Rows, split: bool, lost: bool, copy: OrderRow)
    requires Agree(r, split, lost) && Precedes(copy, r.order)
    ensures FailWithOrder(r, copy) ==
            if r.order.status == PendingPayment
            then Committed(Rows(Enter(r.order, PaymentFailed, 0), r.payment.(status := Failed)), true)
            else Aborted
    ensures FailWithOrder(r, copy).Committed? ==>
              var r' := FailWithOrder(r, copy).rows; Agree(r', split, lost) && Evolves(r, r')
  {
    StaleSave(r.order, copy, PaymentFailed, 0);
  }

  lemma FailBothMeaning(r: Rows, split: bool, lost: bool)
    requires Agree(r, split, lost)
    ensures FailBoth(r) ==
            if r.order.status == PendingPayment
            then Committed(Rows(Enter(r.order, PaymentFailed, 0), r.payment.(status := Failed)), false)
            else if r.payment.status != PaymentStatus.Completed
            then Committed(r.(payment := r.payment.(status := Failed)), false)
            else Aborted
    ensures FailBoth(r).Committed? ==>
              var r' := FailBoth(r).rows; Agree(r', split, lost) && Evolves(r, r')
  {
    StaleSave(r.order, r.order, PaymentFailed, 0);
  }

  lemma WebhookCompletedMeaning(r: Rows, split: bool, lost: bool, paid: nat, accepted: nat)
    requires Agree(r, split, lost)
    ensures WebhookCompleted(r, paid, accepted) ==
            if r.payment.status == Processing && r.order.status == PendingPayment
            then Committed(Rows(Enter(Enter(r.order, Paid, paid), Accepted, accepted),
                                r.payment.(status := PaymentStatus.Completed)), true)
            else if r.payment.status == Processing
            then Committed(r.(payment := r.payment.(status := PaymentStatus.Completed)), true)
            else if r.payment.status == PaymentStatus.Completed && r.order.status == Paid
            then Committed(r.(order := Enter(r.order, Accepted, accepted)), false)
            else if r.payment.status == PaymentStatus.Completed then Committed(r, false)
            else Aborted
    ensures WebhookCompleted(r, paid, accepted).Committed? ==>
              var r' := WebhookCompleted(r, paid, accepted).rows; Agree(r', split, lost) && Evolves(r, r')
  {
    StaleSave(r.order, r.order, Paid, paid);
    var o := if r.order.status == PendingPayment then Enter(r.order, Paid, paid) else r.order;
    assert RowOk(o);
    StaleSave(o, o, Accepted, accepted);
    if o.status == Paid {
      PrecedesTransitive(r.order, o, Enter(o, Accepted, accepted));
    }
  }

  lemma WebhookFailedMeaning(r: Rows, split: bool, lost: bool)
    requires Agree(r, split, lost)
    ensures WebhookFailed(r) ==
            if r.order.status == PendingPayment
            then Committed(Rows(Enter(r.order, PaymentFailed, 0), r.payment.(status := Failed)),
                           r.payment.status != Failed)
            else if PaymentIsTerminal(r.payment.status) then Committed(r, false)
            else Committed(r.(payment := r.payment.(status := Failed)), true)
    ensures var r' := WebhookFailed(r).rows; Agree(r', split, lost) && Evolves(r, r')
  {
    StaleSave(r.order, r.order, PaymentFailed, 0);
  }

  lemma WebhookRefundedMeaning(r: Rows, split: bool, lost: bool)
    requires Agree(r, split, lost)
    ensures WebhookRefunded(r) ==
            Committed(if r.order.status == Cancelled then r.(order := Enter(r.order, Refunded, 0)) else r, false)
    ensures var r' := WebhookRefunded(r).rows; Agree(r', split, lost) && Evolves(r, r')
  {
    StaleSave(r.order, r.order, Refunded, 0);
  }

  // A kitchen move or the fallback's order write: the order alone.
  lemma OrderMoveMeaning(r: Rows, split: bool, lost: bool, copy: OrderRow, s: OrderStatus, t: nat)
    requires Agree(r, split, lost) && Precedes(copy, r.order)
    requires s == PaymentFailed ==> PaymentIsTerminal(r.payment.status) || lost
    requires s != Paid
    ensures OrderTo(r.order, copy, s, t) ==
            if OrderCanMove(r.order.status, s) then Some(Enter(r.order, s, t)) else None
    ensures OrderCanMove(r.order.status, s) ==>
              var r' := r.(order := Enter(r.order, s, t)); Agree(r', split, lost) && Evolves(r, r')
  {
    StaleSave(r.order, copy, s, t);
  }

  // The fallback's payment write, or a promotion to Processing: the payment alone.
  lemma PaymentMoveMeaning(r: Rows, split: bool, lost: bool, s: PaymentStatus)
    requires Agree(r, split, lost) && s in {Processing, Failed}
    ensures PaymentTo(r.payment, s).Some? ==>
              var r' := r.(payment := PaymentTo(r.payment, s).value);
              Agree(r', split || r' != r, lost) && Evolves(r, r') && (s == Processing ==> Agree(r', split, lost))
    ensures PaymentTo(r.payment, s).None? ==> PaymentIsTerminal(r.payment.status)
  {
  }
}
