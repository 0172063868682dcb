/**
 The settlement of one order as a state machine. Any number of threads - webhook
 jobs, the PayPay confirm, the 3DS callbacks, the card and initiation flows, the
 kitchen display and its auto-complete - interleave at transaction granularity.
 Stale reads, clock readings, gateway replies, retries and event dispatch are steps
 of their own, carried in the threads' local state. A thread that is never scheduled
 again has crashed.

 `Step` is total: a label that does not fit the state changes nothing, so a run is
 any sequence of labels.
 */
module SettlementProtocol {
  import opened Common
  import opened Lifecycle
  import opened SettlementRows

  datatype Flow =
    | PayPayConfirm       // CheckoutOrchestrator::finalizePayment, PayPayPaymentService::confirm
    | ThreeDsMethod       // process3dsCallback -> executeAuthentication
    | ThreeDsResult       // process3dsCallback -> confirmAndExecute
    | ThreeDsExecute      // executePaymentFor3ds -> executePayment
    | CardExecute         // executeCardPayment
    | InitiateCard
    | InitiatePayPay

  datatype WebhookKind = CompletedHook | FailedHook | RefundedHook

  datatype Pc =
    // The request has read the payment and its order.
    | Begin(flow: Flow, pay: PaymentRow, copy: OrderRow)
    // Next: the transaction that moves the payment to Processing.
    | Promote(flow: Flow, pay: PaymentRow, copy: OrderRow)
    // Next: the re-read after the promotion in process3dsCallback.
    | Recheck(flow: Flow, copy: OrderRow)
    // A gateway call is out; 3DS flows make a second one to capture.
    | Gateway(flow: Flow, pay: PaymentRow, copy: OrderRow, capture: bool)
    // Next: the transaction that completes (fails) payment and order together.
    | Complete(copy: OrderRow, now: nat, notify: bool)
    | Fail(copy: OrderRow, notify: bool)
    // markPaymentAndOrderAsFailed and its fallback.
    | FailingBoth
    | FallbackRefresh
    | FallbackPayment
    | FallbackReadOrder
    | FallbackOrder(copy: OrderRow)
    // Committed; the event is still to be dispatched.
    | Dispatch(event: Event)
    | Job(kind: WebhookKind, attempt: nat)
    // KdsService::updateOrderStatus and AutoCompleteReadyOrders.
    | Kds(copy: OrderRow, target: OrderStatus)
    | KdsStamped(copy: OrderRow, target: OrderStatus, now: nat)
    | Done

  // The environment's answer to a thread's step.
  datatype Choice =
    | Go(elapsed: nat)              // carry on; a webhook's two clock readings are `elapsed` apart
    | Abort                         // the transaction, or the call before it, throws
    | MissingId                     // a gateway id the flow needs is absent
    | CardRejected
    | GatewayError
    | Captured
    | StillPending
    | Authenticated(refs: nat)
    | Challenge(refs: nat)
    | Declined(refs: nat)

  datatype Label =
    | Tick(seconds: nat)
    | StartFlow(t: nat, flow: Flow)
    | StartJob(t: nat, kind: WebhookKind)
    | StartKds(t: nat, target: OrderStatus)
    | Act(t: nat, choice: Choice)

  // Whether the fallback's payment write may fail for a reason other than the
  // status guard: the one failure that the agreement of the rows depends on.
  datatype Config = Config(fallbackWriteMayFail: bool)

  const JOB_TRIES: nat := 3

  datatype Cell = Cell(
    rows: Rows,
    threads: map<nat, Pc>,
    clock: nat,
    path: seq<OrderStatus>,         // every status the order has had
    fired: multiset<Event>,         // every event dispatched
    split: bool,                    // a fallback has written the payment alone
    lost: bool,                     // a fallback's payment write has failed by itself
    captured: bool)                 // the gateway has answered "captured"

  // The cell right after PaymentService::initiate has created the payment.
  function Initial(total: nat, clock: nat): Cell {
    Cell(Rows(OrderRow(PendingPayment, map[], total), PaymentRow(Pending, total, 0)),
         map[], clock, [PendingPayment], multiset{}, false, false, false)
  }

  // The statuses entered between two stored rows; only the completed webhook enters
  // two in one transaction.
  function Entered(from: OrderStatus, to: OrderStatus): seq<OrderStatus> {
    if from == to then []
    else if from == PendingPayment && to == Accepted then [Paid, Accepted]
    else [to]
  }

  function Commit(c: Cell, rows: Rows): Cell {
    c.(rows := rows, path := c.path + Entered(c.rows.order.status, rows.order.status))
  }

  function Goto(c: Cell, t: nat, pc: Pc): Cell {
    c.(threads := c.threads[t := pc])
  }

  function Step(cfg: Config, c: Cell, l: Label): Cell {
    match l
    case Tick(seconds) => c.(clock := c.clock + seconds)
    case StartFlow(t, flow) =>
      if t in c.threads then c else Goto(c, t, Begin(flow, c.rows.payment, c.rows.order))
    case StartJob(t, kind) =>
      if t in c.threads then c else Goto(c, t, Job(kind, 1))
    case StartKds(t, target) =>
      if t in c.threads then c else Goto(c, t, Kds(c.rows.order, target))
    case Act(t, choice) =>
      if t !in c.threads then c else ActStep(cfg, c, t, choice)
  }

  function ActStep(cfg: Config, c: Cell, t: nat, ch: Choice): Cell
    requires t in c.threads
  {
    match c.threads[t]
    case Begin(flow, pay, copy) => Goto(c, t, AfterBegin(flow, pay, copy, ch))
    case Promote(flow, pay, copy) => PromoteStep(c, t, flow, pay, copy, ch)
    case Recheck(flow, copy) =>
      Goto(c, t, if c.rows.payment.status == Processing then Gateway(flow, c.rows.payment, copy, false) else Done)
    case Gateway(flow, pay, copy, capture) => GatewayStep(c, t, flow, pay, copy, capture, ch)
    case Complete(copy, now, notify) =>
      if ch.Abort? then Goto(c, t, Done)
      else AfterTx(c, t, CompleteWithOrder(c.rows, copy, now), notify, CompletedEvent)
    case Fail(copy, notify) =>
      if ch.Abort? then Goto(c, t, Done)
      else AfterTx(c, t, FailWithOrder(c.rows, copy), notify, FailedEvent)
    case FailingBoth =>
      if ch.Abort? || FailBoth(c.rows).Aborted? then Goto(c, t, FallbackRefresh)
      else Goto(Commit(c, FailBoth(c.rows).rows), t, Done)
    case FallbackRefresh =>
      Goto(c, t, if PaymentIsTerminal(c.rows.payment.status) then FallbackReadOrder else FallbackPayment)
    case FallbackPayment => FallbackPaymentStep(cfg, c, t, ch)
    case FallbackReadOrder =>
      Goto(c, t, if c.rows.order.status == PendingPayment then FallbackOrder(c.rows.order) else Done)
    case FallbackOrder(copy) => OrderMoveStep(c, t, copy, PaymentFailed, 0, ch)
    case Dispatch(event) => Goto(c.(fired := c.fired + multiset{event}), t, Done)
    case Job(kind, attempt) => JobStep(c, t, kind, attempt, ch)
    case Kds(copy, target) =>
      // The check on the copy, the supported targets, then `now()`.
      Goto(c, t, if OrderCanMove(copy.status, target) && IsKitchenStatus(target)
                 then KdsStamped(copy, target, c.clock) else Done)
    case KdsStamped(copy, target, now) => OrderMoveStep(c, t, copy, target, now, ch)
    case Done => c
  }

  // The checks on the payment as first read.
  function AfterBegin(flow: Flow, pay: PaymentRow, copy: OrderRow, ch: Choice): Pc {
    match flow
    case PayPayConfirm =>
      if PaymentIsTerminal(pay.status) || ch.MissingId? then Done else Gateway(flow, pay, copy, false)
    case ThreeDsMethod =>
      if pay.status == Pending then Promote(flow, pay, copy)
      else if pay.status == Processing then Gateway(flow, pay, copy, false) else Done
    case ThreeDsResult =>
      if pay.status == Pending then Promote(flow, pay, copy)
      else if pay.status == Processing then Gateway(flow, pay, copy, false) else Done
    case ThreeDsExecute =>
      if PaymentIsTerminal(pay.status) || ch.MissingId? || ch.Abort? then Done
      else if ch.GatewayError? then FailingBoth
      else Promote(flow, pay, copy)
    case CardExecute =>
      if pay.status != Pending || ch.MissingId? then Done
      else if ch.GatewayError? then FailingBoth
      else Promote(flow, pay, copy)
    case InitiateCard =>
      if ch.CardRejected? then Fail(copy, true) else Gateway(flow, pay, copy, false)
    case InitiatePayPay => Gateway(flow, pay, copy, false)
  }

  function PromoteStep(c: Cell, t: nat, flow: Flow, pay: PaymentRow, copy: OrderRow, ch: Choice): Cell {
    if ch.Abort? then Goto(c, t, Done)
    else
      match PaymentTo(c.rows.payment, Processing)
      case None => Goto(c, t, Done)
      case Some(p) =>
        Goto(Commit(c, c.rows.(payment := p)), t,
             match flow
             case InitiatePayPay => Done
             case ThreeDsMethod => Recheck(flow, copy)
             case ThreeDsResult => Recheck(flow, copy)
             case _ => Gateway(flow, p, copy, false))
  }

  // The reply of the gateway, and the save of the gateway columns it brings.
  function GatewayStep(c: Cell, t: nat, flow: Flow, pay: PaymentRow, copy: OrderRow, capture: bool, ch: Choice): Cell {
    if ch.GatewayError? then Goto(c, t, FailingBoth)
    else if ch.Captured? && MayCapture(flow, capture) then
      Goto(c.(captured := true), t, Complete(copy, c.clock, flow != PayPayConfirm))
    else
      match flow
      case PayPayConfirm => Goto(c, t, if ch.StillPending? then Done else Fail(copy, false))
      case CardExecute => Goto(c, t, Fail(copy, true))
      case ThreeDsExecute => Goto(c, t, Done)
      case InitiateCard => Goto(SaveRefs(c, pay, ch), t, Done)
      case InitiatePayPay => Goto(SaveRefs(c, pay, ch), t, Promote(flow, pay, copy))
      case ThreeDsMethod => ThreeDsReply(c, t, flow, pay, copy, capture, ch)
      case ThreeDsResult => ThreeDsReply(c, t, flow, pay, copy, capture, ch)
  }

  predicate MayCapture(flow: Flow, capture: bool) {
    flow in {PayPayConfirm, CardExecute} || (flow in {ThreeDsMethod, ThreeDsResult} && capture)
  }

  function ThreeDsReply(c: Cell, t: nat, flow: Flow, pay: PaymentRow, copy: OrderRow, capture: bool, ch: Choice): Cell {
    if ch.MissingId? then Goto(c, t, FailingBoth)
    else if capture then Goto(c, t, Fail(copy, true))
    else
      Goto(SaveRefs(c, pay, ch), t,
           if ch.Authenticated? then Gateway(flow, pay, copy, true)
           else if ch.Challenge? && flow == ThreeDsMethod then Done
           else Fail(copy, true))
  }

  // `$payment->save()` after assigning gateway columns only.
  function SaveRefs(c: Cell, pay: PaymentRow, ch: Choice): Cell {
    if ch.Authenticated? || ch.Challenge? || ch.Declined? then
      Commit(c, c.rows.(payment := SavePaymentDirty(c.rows.payment, pay, pay.(refs := ch.refs))))
    else c
  }

  function AfterTx(c: Cell, t: nat, tx: TxResult, notify: bool, event: Event): Cell {
    match tx
    case Aborted => Goto(c, t, Done)
    case Committed(rows, fires) => Goto(Commit(c, rows), t, if notify && fires then Dispatch(event) else Done)
  }

  function FallbackPaymentStep(cfg: Config, c: Cell, t: nat, ch: Choice): Cell {
    if cfg.fallbackWriteMayFail && ch.Abort? then Goto(c.(lost := true), t, FallbackReadOrder)
    else
      match PaymentTo(c.rows.payment, Failed)
      case None => Goto(c, t, FallbackReadOrder)
      case Some(p) =>
        Goto(Commit(c, c.rows.(payment := p)).(split := c.split || p != c.rows.payment), t, FallbackReadOrder)
  }

  function OrderMoveStep(c: Cell, t: nat, copy: OrderRow, target: OrderStatus, now: nat, ch: Choice): Cell {
    if ch.Abort? then Goto(c, t, Done)
    else
      match OrderTo(c.rows.order, copy, target, now)
      case None => Goto(c, t, Done)
      case Some(o) => Goto(Commit(c, c.rows.(order := o)), t, Done)
  }

  // ProcessPaymentWebhookJob::handle: a database error is retried, a refused
  // transition is final.
  function JobStep(c: Cell, t: nat, kind: WebhookKind, attempt: nat, ch: Choice): Cell {
    if ch.Abort? then
      Goto(c, t, if attempt < JOB_TRIES then Job(kind, attempt + 1) else Done)
    else
      var elapsed := if ch.Go? then ch.elapsed else 0;
      match kind
      case CompletedHook =>
        AfterTx(c.(clock := c.clock + elapsed), t,
                WebhookCompleted(c.rows, c.clock, c.clock + elapsed), true, CompletedEvent)
      case FailedHook => AfterTx(c, t, WebhookFailed(c.rows), true, FailedEvent)
      case RefundedHook => AfterTx(c, t, WebhookRefunded(c.rows), false, CompletedEvent)
  }

  function Exec(cfg: Config, c: Cell, run: seq<Label>): Cell
    decreases |run|
  {
    if run == [] then c else Step(cfg, Exec(cfg, c, run[..|run| - 1]), run[|run| - 1])
  }

  // A run one step longer.
  lemma Then(cfg: Config, c0: Cell, run: seq<Label>, c: Cell, l: Label) returns (run': seq<Label>, c': Cell)
    requires Exec(cfg, c0, run) == c
    ensures run' == run + [l] && c' == Step(cfg, c, l) && Exec(cfg, c0, run') == c'
  {
    run', c' := run + [l], Step(cfg, c, l);
    assert run'[..|run|] == run;
  }
}
