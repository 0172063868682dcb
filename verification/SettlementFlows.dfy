/**
 The customer-facing settlement flows in their own form: the PayPay confirm, the card
 execution and the 3DS callback, run from start to end over the shared rows. Each is
 proved against the rows it leaves for every gateway reply and database failure, and
 each is proved to be one of the runs the protocol interleaves.
 */
module SettlementFlows {
  import opened Common
  import opened Lifecycle
  import opened SettlementRows
  import opened SettlementModels
  import Protocol = SettlementProtocol

  datatype Reply = Captured | StillPending | NotCaptured | ApiError

  // `refs`: the gateway columns a 3DS reply brings.
  datatype AuthReply =
    | Authenticated(refs: nat)
    | NeedsChallenge(refs: nat)
    | NotAuthenticated(refs: nat)
    | AuthApiError

  // Which writes the database fails: the promotion to Processing, the save of the gateway
  // columns, the transaction that settles payment and order, and the three of
  // markPaymentAndOrderAsFailed.
  datatype Failures = Failures(
    promotion: bool, saving: bool, settling: bool, both: bool, payment: bool, order: bool)

  datatype Confirmation = Confirmed | NotConfirmed | ConfirmThrew

  datatype ThreeDsResult = IsAuthenticated | RequiresChallenge | HasFailed | ThreeDsThrew

  // ----- what each flow leaves -----

  // The stored rows, and the event dispatched after the commit.
  datatype Left = Left(rows: Rows, event: Option<Event>)

  function Unchanged(r: Rows): Left {
    Left(r, None)
  }

  // The transaction that completes, or fails, payment and order together; with
  // `notify`, the event after it.
  function Settled(r: Rows, copy: OrderRow, captured: bool, now: nat, notify: bool, fails: bool): Left {
    var tx := if fails then Aborted else if captured then CompleteWithOrder(r, copy, now) else FailWithOrder(r, copy);
    if tx.Aborted? then Unchanged(r)
    else if notify then Left(tx.rows, Some(if captured then CompletedEvent else FailedEvent))
    else Left(tx.rows, None)
  }

  function MarkedFailed(r: Rows, f: Failures): Left {
    Left(MarkedAsFailed(r, f.both, f.payment, f.order), None)
  }

  function AfterConfirm(r: Rows, seen: PaymentStatus, copy: OrderRow, hasId: bool, reply: Reply, now: nat,
                        f: Failures): Left {
    if PaymentIsTerminal(seen) || !hasId then Unchanged(r)
    else
      match reply
      case ApiError => MarkedFailed(r, f)
      case StillPending => Unchanged(r)
      case Captured => Settled(r, copy, true, now, false, f.settling)
      case NotCaptured => Settled(r, copy, false, now, false, f.settling)
  }

  // The access id of a card payment: stored or fetched, absent, or the fetch failed.
  datatype Access = HasAccess | NoAccess | AccessApiError

  function AfterCard(r: Rows, seen: PaymentStatus, copy: OrderRow, hasId: bool, access: Access, reply: Reply, now: nat,
                     f: Failures): Left {
    if seen != Pending || !hasId || access.NoAccess? then Unchanged(r)
    else if access.AccessApiError? then MarkedFailed(r, f)
    else if f.promotion then Unchanged(r)
    else
      match PaymentTo(r.payment, Processing)
      case None => Unchanged(r)
      case Some(p) =>
        var promoted := r.(payment := p);
        if reply.ApiError? then MarkedFailed(promoted, f) else Settled(promoted, copy, reply.Captured?, now, true, f.settling)
  }

  function WithRefs(r: Rows, seen: PaymentRow, refs: nat): Rows {
    r.(payment := SavePaymentDirty(r.payment, seen, seen.(refs := refs)))
  }

  // executePaymentAfterAuthentication with the catch of its callers.
  function AfterCapture(r: Rows, copy: OrderRow, hasId: bool, reply: Reply, now: nat, f: Failures): Left {
    if !hasId || reply.ApiError? then MarkedFailed(r, f) else Settled(r, copy, reply.Captured?, now, true, f.settling)
  }

  // What a callback is told from outside. `resultReady`: it follows a challenge.
  datatype Input = Input(
    resultReady: bool, hasAccessId: bool, auth: AuthReply, hasId: bool, reply: Reply, failures: Failures)

  predicate AuthAnswered(i: Input) {
    i.hasAccessId && !i.auth.AuthApiError?
  }

  // executeAuthentication and confirmAndExecute.
  function AfterAuthentication(r: Rows, copy: OrderRow, i: Input, now: nat): Left {
    if !AuthAnswered(i) then MarkedFailed(r, i.failures)
    else if i.failures.saving then Unchanged(r)
    else
      var saved := WithRefs(r, r.payment, i.auth.refs);
      if i.auth.Authenticated? then AfterCapture(saved, copy, i.hasId, i.reply, now, i.failures)
      else if i.auth.NeedsChallenge? && !i.resultReady then Unchanged(saved)
      else Settled(saved, copy, false, now, true, i.failures.settling)
  }

  // process3dsCallback
  function AfterCallback(r: Rows, copy: OrderRow, i: Input, now: nat): Left {
    if PaymentIsTerminal(r.payment.status) then Unchanged(r)
    else if r.payment.status == Pending && i.failures.promotion then Unchanged(r)
    else AfterAuthentication(r.(payment := r.payment.(status := Processing)), copy, i, now)
  }

  // The database once a flow has left it so.
  twostate predicate Leaves(db: Database, left: Left)
    reads db
  {
    && db.Stored() == left.rows
    && db.dispatched == old(db.dispatched) + if left.event.Some? then [left.event.value] else []
  }

  twostate predicate Announces(db: Database, e: Event)
    reads db
  {
    |db.dispatched| > |old(db.dispatched)| && db.dispatched[|db.dispatched| - 1] == e
  }

  // When the settling transactions go through.
  lemma PairsCommit(r: Rows, copy: OrderRow, now: nat)
    ensures CompleteWithOrder(r, copy, now).Committed? <==>
            r.payment.status in {Processing, PaymentStatus.Completed} && r.order.status == PendingPayment
    ensures FailWithOrder(r, copy).Committed? <==>
            r.payment.status != PaymentStatus.Completed && r.order.status == PendingPayment
  {
  }

  // ----- the services -----

  class PayPayPaymentService {
    // Success is reported exactly with a Completed payment: one seen before, or one this
    // call has settled.
    method Confirm(payment: Payment, order: Order, hasId: bool, reply: Reply, now: nat, f: Failures)
      returns (r: Confirmation)
      requires payment.db == order.db && order.Valid() && RowOk(order.db.order)
      modifies payment, order, order.db
      ensures Leaves(order.db,
                     AfterConfirm(old(order.db.Stored()), old(payment.attributes.status), old(order.loaded),
                                  hasId, reply, now, f))
      ensures r.Confirmed? <==>
                || old(payment.attributes.status) == PaymentStatus.Completed
                || (old(payment.attributes.status) != Failed && hasId && reply.Captured? && !f.settling &&
                    old(order.db.payment.status) in {Processing, PaymentStatus.Completed} &&
                    old(order.db.order.status) == PendingPayment)
      ensures r.NotConfirmed? <==>
                || old(payment.attributes.status) == Failed
                || (old(payment.attributes.status) != PaymentStatus.Completed && hasId &&
                    (reply.StillPending? ||
                     (reply.NotCaptured? && !f.settling &&
                      old(order.db.payment.status) != PaymentStatus.Completed &&
                      old(order.db.order.status) == PendingPayment)))
      ensures r.Confirmed? ==>
                old(payment.attributes.status) == PaymentStatus.Completed ||
                order.db.payment.status == PaymentStatus.Completed
      ensures r.NotConfirmed? ==>
                old(payment.attributes.status) == Failed || reply.StillPending? || order.db.payment.status == Failed
    {
      PairsCommit(order.db.Stored(), order.loaded, now);
      hide OrderTo, RowOk;
      if payment.attributes.status == PaymentStatus.Completed { return Confirmed; }
      if payment.attributes.status == Failed { return NotConfirmed; }
      if !hasId { return ConfirmThrew; }
      match reply {
        case ApiError =>
          MarkPaymentAndOrderAsFailed(payment, f.both, f.payment, f.order);
          return ConfirmThrew;
        case StillPending =>
          return NotConfirmed;
        case Captured =>
          var ok := CompleteTogether(payment, order, now, f.settling);
          return if ok then Confirmed else ConfirmThrew;
        case NotCaptured =>
          var ok := FailTogether(payment, order, f.settling);
          return if ok then NotConfirmed else ConfirmThrew;
      }
    }
  }

  class CardPaymentService {
    // Returning without an exception means a Completed payment.
    method ExecuteCardPayment(payment: Payment, order: Order, hasId: bool, access: Access, reply: Reply, now: nat, f: Failures)
      returns (ok: bool)
      requires payment.db == order.db && order.Valid() && RowOk(order.db.order)
      modifies payment, order, order.db
      ensures Leaves(order.db,
                     AfterCard(old(order.db.Stored()), old(payment.attributes.status), old(order.loaded),
                               hasId, access, reply, now, f))
      ensures ok ==> order.db.payment.status == PaymentStatus.Completed
      ensures ok <==>
                && old(payment.attributes.status) == Pending && hasId && access.HasAccess? && reply.Captured?
                && !f.promotion && !f.settling
                && old(order.db.payment.status) in {Pending, Processing} && old(order.db.order.status) == PendingPayment
    {
      PairsCommit(order.db.Stored().(payment := order.db.payment.(status := Processing)), order.loaded, now);
      hide OrderTo, RowOk;
      if payment.attributes.status != Pending || !hasId || access.NoAccess? {
        return false;
      }
      if access.AccessApiError? {
        MarkPaymentAndOrderAsFailed(payment, f.both, f.payment, f.order);
        return false;
      }
      if f.promotion {
        return false;
      }
      ok := payment.TransitionTo(Processing);
      if !ok {
        return;
      }
      if reply.ApiError? {
        MarkPaymentAndOrderAsFailed(payment, f.both, f.payment, f.order);
        return false;
      }
      if reply.Captured? {
        ok := CompletePaymentWithOrder(payment, order, now, f.settling);
      } else {
        var _ := FailPaymentWithOrder(payment, order, f.settling);
        ok := false;
      }
    }
  }

  class ThreeDsPaymentService {
    method ExecutePaymentAfterAuthentication(payment: Payment, order: Order, hasId: bool, reply: Reply, now: nat, f: Failures)
      returns (r: ThreeDsResult)
      requires payment.db == order.db && order.Valid() && RowOk(order.db.order)
      modifies payment, order, order.db
      ensures Leaves(order.db, AfterCapture(old(order.db.Stored()), old(order.loaded), hasId, reply, now, f))
      ensures r.IsAuthenticated? ==> order.db.payment.status == PaymentStatus.Completed
      ensures r.HasFailed? ==> order.db.payment.status == Failed
      ensures r.IsAuthenticated? <==> Announces(order.db, CompletedEvent)
      ensures r.HasFailed? <==> Announces(order.db, FailedEvent)
      ensures !r.RequiresChallenge?
    {
      hide OrderTo, RowOk;
      if !hasId || reply.ApiError? {
        MarkPaymentAndOrderAsFailed(payment, f.both, f.payment, f.order);
        return ThreeDsThrew;
      }
      if reply.Captured? {
        var ok := CompletePaymentWithOrder(payment, order, now, f.settling);
        return if ok then IsAuthenticated else ThreeDsThrew;
      }
      var ok := FailPaymentWithOrder(payment, order, f.settling);
      return if ok then HasFailed else ThreeDsThrew;
    }

    method Authenticate(payment: Payment, order: Order, i: Input, now: nat) returns (r: ThreeDsResult)
      requires payment.db == order.db && order.Valid() && RowOk(order.db.order)
      requires payment.attributes == order.db.payment
      modifies payment, order, order.db
      ensures Leaves(order.db, AfterAuthentication(old(order.db.Stored()), old(order.loaded), i, now))
      ensures r.IsAuthenticated? ==> order.db.payment.status == PaymentStatus.Completed
      ensures r.HasFailed? ==> order.db.payment.status == Failed
      ensures r.IsAuthenticated? <==> Announces(order.db, CompletedEvent)
      ensures r.HasFailed? <==> Announces(order.db, FailedEvent)
      ensures r.RequiresChallenge? <==>
                i.hasAccessId && i.auth.NeedsChallenge? && !i.resultReady && !i.failures.saving
    {
      hide OrderTo, RowOk;
      if !AuthAnswered(i) {
        MarkPaymentAndOrderAsFailed(payment, i.failures.both, i.failures.payment, i.failures.order);
        return ThreeDsThrew;
      }
      if i.failures.saving {
        return ThreeDsThrew;
      }
      SaveRefs(payment, i.auth.refs);
      if i.auth.Authenticated? {
        r := ExecutePaymentAfterAuthentication(payment, order, i.hasId, i.reply, now, i.failures);
        return;
      }
      if i.auth.NeedsChallenge? && !i.resultReady {
        return RequiresChallenge;
      }
      var ok := FailPaymentWithOrder(payment, order, i.failures.settling);
      return if ok then HasFailed else ThreeDsThrew;
    }

    // `$payment->save()` with only the gateway columns assigned.
    method SaveRefs(payment: Payment, refs: nat)
      modifies payment, payment.db`payment
      ensures payment.db.payment ==
              SavePaymentDirty(old(payment.db.payment), old(payment.attributes), old(payment.attributes).(refs := refs))
    {
      var db := payment.db;
      var filled := payment.attributes.(refs := refs);
      db.payment := SavePaymentDirty(db.payment, payment.attributes, filled);
      payment.attributes := filled;
    }
  }

  class CheckoutOrchestrator {
    const threeDs: ThreeDsPaymentService

    constructor (threeDs: ThreeDsPaymentService)
    {
      this.threeDs := threeDs;
    }

    // An authenticated answer is given exactly with a Completed payment in the rows, a
    // failed one exactly with a Failed one.
    method Process3dsCallback(payment: Payment, order: Order, i: Input, now: nat) returns (r: ThreeDsResult)
      requires payment.db == order.db && order.Valid() && RowOk(order.db.order)
      modifies payment, order, order.db
      ensures Leaves(order.db, AfterCallback(old(order.db.Stored()), old(order.loaded), i, now))
      ensures r.IsAuthenticated? <==> order.db.payment.status == PaymentStatus.Completed
      ensures r.HasFailed? ==> order.db.payment.status == Failed
      ensures r.HasFailed? <==> Announces(order.db, FailedEvent)
      ensures r.RequiresChallenge? <==>
                && old(order.db.payment.status) in {Pending, Processing}
                && !(old(order.db.payment.status) == Pending && i.failures.promotion)
                && i.hasAccessId && i.auth.NeedsChallenge? && !i.resultReady && !i.failures.saving
      ensures old(order.db.payment.status) == PaymentStatus.Completed ==> r.IsAuthenticated?
      ensures old(order.db.payment.status) == Failed ==> r.ThreeDsThrew?
    {
      hide OrderTo, RowOk;
      payment.Refresh();
      if payment.attributes.status == PaymentStatus.Completed {
        return IsAuthenticated;
      }
      if payment.attributes.status == Pending {
        if i.failures.promotion {
          return ThreeDsThrew;
        }
        var ok := payment.TransitionTo(Processing);
        assert ok;
        payment.Refresh();
      }
      if payment.attributes.status != Processing {
        return ThreeDsThrew;
      }
      r := threeDs.Authenticate(payment, order, i, now);
    }
  }

  // ----- what a flow comes to -----

  // On rows in agreement, the error handler fails both when the order is pending, each
  // unless its writes fail, and otherwise the payment alone unless it is Completed.
  lemma MarkedFailedMeaning(r: Rows, split: bool, lost: bool, f: Failures)
    requires Agree(r, split, lost)
    ensures var l := MarkedFailed(r, f);
            var fails := f.both && f.payment;
            && l.event == None
            && l.rows.payment == (if r.payment.status == PaymentStatus.Completed || fails then r.payment
                                  else r.payment.(status := Failed))
            && l.rows.order == (if r.order.status != PendingPayment || (f.both && f.order) then r.order
                                else OrderRow(PaymentFailed, r.order.at, r.order.total))
  {
    FailBothMeaning(r, split, lost);
    hide RowOk;
  }

  predicate IsPaidNow(before: Rows, after: Rows, now: nat) {
    && after.payment == before.payment.(status := PaymentStatus.Completed)
    && after.order == OrderRow(Paid, before.order.at[Paid := now], before.order.total)
  }

  predicate IsFailedNow(before: Rows, after: Rows) {
    && after.payment == before.payment.(status := Failed)
    && after.order == OrderRow(PaymentFailed, before.order.at, before.order.total)
  }

  // A PayPay confirm through copies however stale: a captured payment is completed and
  // its order paid, one not captured failed with its order, an error fails what it can,
  // and anything else leaves the rows alone.
  lemma ConfirmMeaning(r: Rows, split: bool, lost: bool, seen: PaymentStatus, copy: OrderRow, hasId: bool,
                       reply: Reply, now: nat, f: Failures)
    requires Agree(r, split, lost) && Precedes(copy, r.order)
    ensures var l := AfterConfirm(r, seen, copy, hasId, reply, now, f);
            if seen in {PaymentStatus.Completed, Failed} || !hasId then l == Left(r, None)
            else
              match reply
              case Captured =>
                && l.event == None
                && if r.payment.status == Processing && r.order.status == PendingPayment && !f.settling
                   then IsPaidNow(r, l.rows, now) else l.rows == r
              case NotCaptured =>
                && l.event == None
                && if r.order.status == PendingPayment && !f.settling then IsFailedNow(r, l.rows) else l.rows == r
              case StillPending => l == Left(r, None)
              case ApiError => l == MarkedFailed(r, f)
  {
    CompleteMeaning(r, split, lost, copy, now);
    FailMeaning(r, split, lost, copy);
    hide RowOk, Precedes, CompleteWithOrder, FailWithOrder, MarkedFailed, OrderCanMove;
  }

  // The card execution: a Pending payment is promoted and then settled as the gateway
  // says, with the event that says so.
  lemma CardMeaning(r: Rows, split: bool, lost: bool, seen: PaymentStatus, copy: OrderRow, hasId: bool,
                    access: Access, reply: Reply, now: nat, f: Failures)
    requires Agree(r, split, lost) && Precedes(copy, r.order)
    ensures var l := AfterCard(r, seen, copy, hasId, access, reply, now, f);
            var promoted := r.(payment := r.payment.(status := Processing));
            if seen != Pending || !hasId || access.NoAccess? then l == Left(r, None)
            else if access.AccessApiError? then l == MarkedFailed(r, f)
            else if f.promotion || r.payment.status !in {Pending, Processing} then l == Left(r, None)
            else if reply.ApiError? then l == MarkedFailed(promoted, f)
            else if f.settling || r.order.status != PendingPayment then l == Left(promoted, None)
            else if reply.Captured? then IsPaidNow(promoted, l.rows, now) && l.event == Some(CompletedEvent)
            else IsFailedNow(promoted, l.rows) && l.event == Some(FailedEvent)
  {
    var promoted := r.(payment := r.payment.(status := Processing));
    if r.payment.status in {Pending, Processing} {
      PaymentMoveMeaning(r, split, lost, Processing);
      CompleteMeaning(promoted, split, lost, copy, now);
      FailMeaning(promoted, split, lost, copy);
    }
    hide RowOk, Precedes, CompleteWithOrder, FailWithOrder, MarkedFailed, OrderCanMove;
  }

  datatype CallbackVerdict = Paying | Waiting | Declining | Breaking

  function Verdict(i: Input): CallbackVerdict {
    if !AuthAnswered(i) then Breaking
    else if i.auth.Authenticated? then
      if !i.hasId || i.reply.ApiError? then Breaking else if i.reply.Captured? then Paying else Declining
    else if i.auth.NeedsChallenge? && !i.resultReady then Waiting
    else Declining
  }

  // The payment is being processed, the order still waits, and nobody has been told.
  predicate LeftOpen(r: Rows, l: Left) {
    l.rows.payment.status == Processing && l.rows.order == r.order && l.event == None
  }

  // On rows in agreement, a callback for a pending order leaves them settled as the
  // gateway said, and says so once; or it waits for a challenge; or both fail silently,
  // unless the combined failure transaction fails too. A database failure of the
  // settling transaction or of the save before it leaves them open, one of the promotion
  // leaves them alone.
  lemma CallbackMeaning(r: Rows, copy: OrderRow, i: Input, now: nat)
    requires Agree(r, false, false) && Precedes(copy, r.order) && r.order.status == PendingPayment
    ensures var l := AfterCallback(r, copy, i, now);
            if r.payment.status == Pending && i.failures.promotion then l == Unchanged(r)
            else if AuthAnswered(i) && i.failures.saving then LeftOpen(r, l)
            else
              match Verdict(i)
              case Paying =>
                if i.failures.settling then LeftOpen(r, l)
                else
                  && l.rows.payment.status == PaymentStatus.Completed && l.rows.order == Enter(r.order, Paid, now)
                  && l.event == Some(CompletedEvent)
              case Waiting => LeftOpen(r, l)
              case Declining =>
                if i.failures.settling then LeftOpen(r, l)
                else
                  && l.rows.payment.status == Failed && l.rows.order == Enter(r.order, PaymentFailed, 0)
                  && l.event == Some(FailedEvent)
              case Breaking =>
                && l.event == None
                && (!i.failures.both ==> l.rows.payment.status == Failed && l.rows.order.status == PaymentFailed)
  {
    StaleSave(r.order, copy, Paid, now);
    StaleSave(r.order, copy, PaymentFailed, 0);
    StaleSave(r.order, r.order, PaymentFailed, 0);
    hide OrderTo, RowOk, Precedes, Enter, OrderCanMove;
  }

  // ----- each flow is a run of the protocol -----

  // The run ends with thread `t` finished, or about to dispatch the event, with these
  // rows, and with the gateway having captured the money or not.
  ghost predicate IsRun(cfg: Protocol.Config, c: Protocol.Cell, t: nat, left: Left, captured: bool, run: seq<Protocol.Label>) {
    var c' := Protocol.Exec(cfg, c, run);
    && c'.rows == left.rows && c'.captured == captured && t in c'.threads
    && c'.threads[t] == if left.event.Some? then Protocol.Dispatch(left.event.value) else Protocol.Done
  }

  lemma PairsFire(r: Rows, copy: OrderRow, now: nat)
    ensures CompleteWithOrder(r, copy, now).Committed? ==> CompleteWithOrder(r, copy, now).fires
    ensures FailWithOrder(r, copy).Committed? ==> FailWithOrder(r, copy).fires
  {
    hide OrderTo;
  }

  lemma SettledRun(cfg: Protocol.Config, c0: Protocol.Cell, run0: seq<Protocol.Label>, c: Protocol.Cell, t: nat,
                   captured: bool, now: nat, fails: bool)
    returns (run: seq<Protocol.Label>)
    requires Protocol.Exec(cfg, c0, run0) == c && t in c.threads
    requires if captured then c.threads[t].Complete? && c.threads[t].now == now else c.threads[t].Fail?
    ensures IsRun(cfg, c0, t, Settled(c.rows, c.threads[t].copy, captured, now, c.threads[t].notify, fails), c.captured, run)
  {
    PairsFire(c.rows, c.threads[t].copy, now);
    hide Protocol.Exec, Protocol.JobStep, Protocol.GatewayStep, Protocol.PromoteStep, Protocol.OrderMoveStep,
         Protocol.FallbackPaymentStep, Protocol.AfterBegin, CompleteWithOrder, FailWithOrder;
    var c': Protocol.Cell;
    run, c' := Protocol.Then(cfg, c0, run0, c, Protocol.Act(t, if fails then Protocol.Abort else Protocol.Go(0)));
  }

  // The failing writes, one after the other.
  lemma MarkedRun(cfg: Protocol.Config, c0: Protocol.Cell, run0: seq<Protocol.Label>, c: Protocol.Cell, t: nat,
                  f: Failures)
    returns (run: seq<Protocol.Label>)
    requires Protocol.Exec(cfg, c0, run0) == c && t in c.threads && c.threads[t].FailingBoth?
    requires RowOk(c.rows.order) && (f.payment ==> cfg.fallbackWriteMayFail)
    ensures IsRun(cfg, c0, t, MarkedFailed(c.rows, f), c.captured, run)
  {
    hide Protocol.Exec, Protocol.JobStep, Protocol.GatewayStep, Protocol.PromoteStep, FailBoth, RowOk;
    var c1: Protocol.Cell;
    run, c1 := Protocol.Then(cfg, c0, run0, c, Protocol.Act(t, if f.both then Protocol.Abort else Protocol.Go(0)));
    if f.both || FailBoth(c.rows).Aborted? {
      assert c1 == Protocol.Goto(c, t, Protocol.FallbackRefresh);
      run, c1 := Protocol.Then(cfg, c0, run, c1, Protocol.Act(t, Protocol.Go(0)));
      run := FallbackRun(cfg, c0, run, c1, t, f);
    }
  }

  lemma FallbackRun(cfg: Protocol.Config, c0: Protocol.Cell, run0: seq<Protocol.Label>, c: Protocol.Cell, t: nat,
                  f: Failures)
    returns (run: seq<Protocol.Label>)
    requires Protocol.Exec(cfg, c0, run0) == c && t in c.threads && RowOk(c.rows.order)
    requires f.payment ==> cfg.fallbackWriteMayFail
    requires c.threads[t] == if PaymentIsTerminal(c.rows.payment.status) then Protocol.FallbackReadOrder else Protocol.FallbackPayment
    ensures var p := c.rows.payment;
            var p' := if PaymentIsTerminal(p.status) || f.payment then p else p.(status := Failed);
            var o' := if c.rows.order.status != PendingPayment || f.order then c.rows.order
                      else Enter(c.rows.order, PaymentFailed, 0);
            IsRun(cfg, c0, t, Left(Rows(o', p'), None), c.captured, run)
  {
    hide Protocol.Exec, OrderTo, RowOk;
    if c.threads[t].FallbackPayment? {
      var c1: Protocol.Cell;
      run, c1 := Protocol.Then(cfg, c0, run0, c, Protocol.Act(t, if f.payment then Protocol.Abort else Protocol.Go(0)));
      assert c1.threads[t] == Protocol.FallbackReadOrder && c1.rows.order == c.rows.order && c1.captured == c.captured;
      run := OrderRun(cfg, c0, run, c1, t, f.order);
    } else {
      run := OrderRun(cfg, c0, run0, c, t, f.order);
    }
  }

  lemma OrderRun(cfg: Protocol.Config, c0: Protocol.Cell, run0: seq<Protocol.Label>, c: Protocol.Cell, t: nat,
                  fails: bool)
    returns (run: seq<Protocol.Label>)
    requires Protocol.Exec(cfg, c0, run0) == c && t in c.threads && c.threads[t] == Protocol.FallbackReadOrder && RowOk(c.rows.order)
    ensures var o' := if c.rows.order.status != PendingPayment || fails then c.rows.order
                      else Enter(c.rows.order, PaymentFailed, 0);
            IsRun(cfg, c0, t, Left(c.rows.(order := o'), None), c.captured, run)
  {
    ReadsOrder(cfg, c, t);
    hide Protocol.Exec, Protocol.Step, OrderTo, RowOk, Enter;
    var c1: Protocol.Cell;
    run, c1 := Protocol.Then(cfg, c0, run0, c, Protocol.Act(t, Protocol.Go(0)));
    if c.rows.order.status == PendingPayment {
      FailsOrder(cfg, c1, t, fails);
      run, c1 := Protocol.Then(cfg, c0, run, c1, Protocol.Act(t, if fails then Protocol.Abort else Protocol.Go(0)));
    }
  }

  lemma ReadsOrder(cfg: Protocol.Config, c: Protocol.Cell, t: nat)
    requires t in c.threads && c.threads[t] == Protocol.FallbackReadOrder
    ensures Protocol.Step(cfg, c, Protocol.Act(t, Protocol.Go(0))) ==
            Protocol.Goto(c, t, if c.rows.order.status == PendingPayment then Protocol.FallbackOrder(c.rows.order)
                                else Protocol.Done)
  {
    hide Protocol.JobStep, Protocol.GatewayStep, Protocol.PromoteStep, Protocol.FallbackPaymentStep,
         Protocol.AfterBegin, Protocol.AfterTx, Protocol.OrderMoveStep;
  }

  lemma FailsOrder(cfg: Protocol.Config, c: Protocol.Cell, t: nat, fails: bool)
    requires t in c.threads && c.threads[t] == Protocol.FallbackOrder(c.rows.order)
    requires c.rows.order.status == PendingPayment && RowOk(c.rows.order)
    ensures var c' := Protocol.Step(cfg, c, Protocol.Act(t, if fails then Protocol.Abort else Protocol.Go(0)));
            && c'.rows == (if fails then c.rows else c.rows.(order := Enter(c.rows.order, PaymentFailed, 0)))
            && c'.captured == c.captured && t in c'.threads && c'.threads[t] == Protocol.Done
  {
    StaleSave(c.rows.order, c.rows.order, PaymentFailed, 0);
    hide Protocol.JobStep, Protocol.GatewayStep, Protocol.PromoteStep, Protocol.FallbackPaymentStep,
         Protocol.AfterBegin, Protocol.AfterTx, Protocol.Entered, OrderTo, RowOk, Enter;
  }

  // A thread that has read the rows and made its first checks.
  lemma BegunRun(cfg: Protocol.Config, c: Protocol.Cell, t: nat, flow: Protocol.Flow, choice: Protocol.Choice)
    returns (run: seq<Protocol.Label>, c': Protocol.Cell)
    requires t !in c.threads
    ensures Protocol.Exec(cfg, c, run) == c'
    ensures c' == Protocol.Goto(c, t, Protocol.AfterBegin(flow, c.rows.payment, c.rows.order, choice))
  {
    run, c' := [], c;
    assert Protocol.Exec(cfg, c, run) == c;
    hide Protocol.Exec, Protocol.AfterBegin;
    run, c' := Protocol.Then(cfg, c, run, c', Protocol.StartFlow(t, flow));
    run, c' := Protocol.Then(cfg, c, run, c', Protocol.Act(t, choice));
  }

  lemma ConfirmIsARun(cfg: Protocol.Config, c: Protocol.Cell, t: nat, hasId: bool, reply: Reply, f: Failures)
    returns (run: seq<Protocol.Label>)
    requires t !in c.threads && RowOk(c.rows.order) && (f.payment ==> cfg.fallbackWriteMayFail)
    ensures IsRun(cfg, c, t, AfterConfirm(c.rows, c.rows.payment.status, c.rows.order, hasId, reply, c.clock, f),
                  c.captured || (!PaymentIsTerminal(c.rows.payment.status) && hasId && reply.Captured?), run)
  {
    hide Protocol.Exec, Protocol.Step, Settled, MarkedFailed, RowOk;
    var c1: Protocol.Cell;
    run, c1 := BegunRun(cfg, c, t, Protocol.PayPayConfirm, if hasId then Protocol.Go(0) else Protocol.MissingId);
    if !PaymentIsTerminal(c.rows.payment.status) && hasId {
      run := ReplyRun(cfg, c, run, c1, t, reply, f);
    }
  }

  lemma ReplyRun(cfg: Protocol.Config, c0: Protocol.Cell, run0: seq<Protocol.Label>, c: Protocol.Cell, t: nat,
                 reply: Reply, f: Failures)
    returns (run: seq<Protocol.Label>)
    requires Protocol.Exec(cfg, c0, run0) == c && t in c.threads && RowOk(c.rows.order)
    requires c.threads[t] == Protocol.Gateway(Protocol.PayPayConfirm, c.rows.payment, c.rows.order, false)
    requires f.payment ==> cfg.fallbackWriteMayFail
    ensures IsRun(cfg, c0, t, AfterConfirm(c.rows, Processing, c.rows.order, true, reply, c.clock, f),
                  c.captured || reply.Captured?, run)
  {
    hide Protocol.Exec, Settled, MarkedFailed, RowOk,
         Protocol.JobStep, Protocol.OrderMoveStep, CompleteWithOrder, FailWithOrder, FailBoth;
    var c1: Protocol.Cell;
    var choice := match reply
                  case ApiError => Protocol.GatewayError
                  case StillPending => Protocol.StillPending
                  case Captured => Protocol.Captured
                  case NotCaptured => Protocol.Declined(0);
    run, c1 := Protocol.Then(cfg, c0, run0, c, Protocol.Act(t, choice));
    match reply
    case ApiError => run := MarkedRun(cfg, c0, run, c1, t, f);
    case StillPending =>
    case Captured => run := SettledRun(cfg, c0, run, c1, t, true, c.clock, f.settling);
    case NotCaptured => run := SettledRun(cfg, c0, run, c1, t, false, c.clock, f.settling);
  }

  // The gateway is asked to capture, and does.
  predicate Captures(i: Input) {
    AuthAnswered(i) && !i.failures.saving && i.auth.Authenticated? && i.hasId && i.reply.Captured?
  }

  predicate GetsThrough(s: PaymentStatus, i: Input) {
    !PaymentIsTerminal(s) && !(s == Pending && i.failures.promotion)
  }

  function FlowOf(i: Input): Protocol.Flow {
    if i.resultReady then Protocol.ThreeDsResult else Protocol.ThreeDsMethod
  }

  function ChoiceOf(i: Input): Protocol.Choice {
    if !i.hasAccessId then Protocol.MissingId
    else
      match i.auth
      case AuthApiError => Protocol.GatewayError
      case Authenticated(refs) => Protocol.Authenticated(refs)
      case NeedsChallenge(refs) => Protocol.Challenge(refs)
      case NotAuthenticated(refs) => Protocol.Declined(refs)
  }

  // Where the answer to the authentication request leads.
  function AfterReply(i: Input, pay: PaymentRow, copy: OrderRow): Protocol.Pc {
    if !AuthAnswered(i) then Protocol.FailingBoth
    else if i.auth.Authenticated? then Protocol.Gateway(FlowOf(i), pay, copy, true)
    else if i.auth.NeedsChallenge? && !i.resultReady then Protocol.Done
    else Protocol.Fail(copy, true)
  }

  lemma AskedRun(cfg: Protocol.Config, c0: Protocol.Cell, run0: seq<Protocol.Label>, c: Protocol.Cell, t: nat,
                 copy: OrderRow, i: Input)
    returns (run: seq<Protocol.Label>, c': Protocol.Cell)
    requires Protocol.Exec(cfg, c0, run0) == c && t in c.threads
    requires c.threads[t] == Protocol.Gateway(FlowOf(i), c.rows.payment, copy, false)
    ensures Protocol.Exec(cfg, c0, run) == c' && c'.clock == c.clock && c'.captured == c.captured
    ensures c'.rows == if !AuthAnswered(i) then c.rows
                       else WithRefs(c.rows, c.rows.payment, i.auth.refs)
    ensures t in c'.threads && c'.threads[t] == AfterReply(i, c.rows.payment, copy)
  {
    hide Protocol.Exec, SavePaymentDirty, Protocol.Entered;
    run, c' := Protocol.Then(cfg, c0, run0, c, Protocol.Act(t, ChoiceOf(i)));
  }

  // From the gateway being asked to authenticate.
  lemma AuthenticateRun(cfg: Protocol.Config, c0: Protocol.Cell, run0: seq<Protocol.Label>, c: Protocol.Cell, t: nat,
                        copy: OrderRow, i: Input)
    returns (run: seq<Protocol.Label>)
    requires Protocol.Exec(cfg, c0, run0) == c && t in c.threads && RowOk(c.rows.order)
    requires c.threads[t] == Protocol.Gateway(FlowOf(i), c.rows.payment, copy, false)
    requires i.failures.payment ==> cfg.fallbackWriteMayFail
    ensures IsRun(cfg, c0, t, AfterAuthentication(c.rows, copy, i, c.clock), c.captured || Captures(i), run)
  {
    hide Protocol.Exec, Protocol.Step, Settled, MarkedFailed, RowOk, AfterCapture, SavePaymentDirty;
    var c1: Protocol.Cell;
    if AuthAnswered(i) && i.failures.saving {
      run := UnsavedRun(cfg, c0, run0, c, t, copy, i);
      return;
    }
    run, c1 := AskedRun(cfg, c0, run0, c, t, copy, i);
    if !AuthAnswered(i) {
      run := MarkedRun(cfg, c0, run, c1, t, i.failures);
    } else if i.auth.Authenticated? {
      run := CaptureRun(cfg, c0, run, c1, t, copy, i);
    } else if !(i.auth.NeedsChallenge? && !i.resultReady) {
      run := SettledRun(cfg, c0, run, c1, t, false, c.clock, i.failures.settling);
    }
  }

  // The save fails in the database: the thread goes no further.
  lemma UnsavedRun(cfg: Protocol.Config, c0: Protocol.Cell, run0: seq<Protocol.Label>, c: Protocol.Cell, t: nat,
                   copy: OrderRow, i: Input)
    returns (run: seq<Protocol.Label>)
    requires Protocol.Exec(cfg, c0, run0) == c && t in c.threads
    requires c.threads[t] == Protocol.Gateway(FlowOf(i), c.rows.payment, copy, false)
    ensures IsRun(cfg, c0, t, Unchanged(c.rows), c.captured, run)
  {
    hide Protocol.Exec;
    var c1: Protocol.Cell;
    run, c1 := Protocol.Then(cfg, c0, run0, c, Protocol.Act(t, Protocol.Abort));
    assert c1 == Protocol.Goto(c, t, Protocol.Fail(copy, true));
    run, c1 := Protocol.Then(cfg, c0, run, c1, Protocol.Act(t, Protocol.Abort));
  }

  // The gateway's answer to the capture.
  lemma CapturedRun(cfg: Protocol.Config, c0: Protocol.Cell, run0: seq<Protocol.Label>, c: Protocol.Cell, t: nat,
                    i: Input)
    returns (run: seq<Protocol.Label>, c': Protocol.Cell)
    requires Protocol.Exec(cfg, c0, run0) == c && t in c.threads
    requires c.threads[t].Gateway? && c.threads[t].flow == FlowOf(i) && c.threads[t].capture
    ensures Protocol.Exec(cfg, c0, run) == c' && c'.rows == c.rows && t in c'.threads
    ensures c'.captured == (c.captured || (i.hasId && i.reply.Captured?))
    ensures var copy := c.threads[t].copy;
            c'.threads[t] == if !i.hasId || i.reply.ApiError? then Protocol.FailingBoth
                             else if i.reply.Captured? then Protocol.Complete(copy, c.clock, true)
                             else Protocol.Fail(copy, true)
  {
    hide Protocol.Exec, Protocol.JobStep, Protocol.OrderMoveStep, Protocol.AfterBegin, Protocol.PromoteStep,
         Protocol.FallbackPaymentStep, Protocol.AfterTx, CompleteWithOrder, FailWithOrder, FailBoth;
    var choice := if !i.hasId then Protocol.MissingId
                  else
                    match i.reply
                    case ApiError => Protocol.GatewayError
                    case Captured => Protocol.Captured
                    case _ => Protocol.Declined(0);
    run, c' := Protocol.Then(cfg, c0, run0, c, Protocol.Act(t, choice));
  }

  lemma CaptureRun(cfg: Protocol.Config, c0: Protocol.Cell, run0: seq<Protocol.Label>, c: Protocol.Cell, t: nat,
                   copy: OrderRow, i: Input)
    returns (run: seq<Protocol.Label>)
    requires Protocol.Exec(cfg, c0, run0) == c && t in c.threads && RowOk(c.rows.order)
    requires c.threads[t].Gateway? && c.threads[t].flow == FlowOf(i) && c.threads[t].copy == copy && c.threads[t].capture
    requires i.failures.payment ==> cfg.fallbackWriteMayFail
    ensures IsRun(cfg, c0, t, AfterCapture(c.rows, copy, i.hasId, i.reply, c.clock, i.failures),
                  c.captured || (i.hasId && i.reply.Captured?), run)
  {
    hide Protocol.Exec, Settled, MarkedFailed, RowOk;
    var c1: Protocol.Cell;
    run, c1 := CapturedRun(cfg, c0, run0, c, t, i);
    if !i.hasId || i.reply.ApiError? {
      run := MarkedRun(cfg, c0, run, c1, t, i.failures);
    } else {
      run := SettledRun(cfg, c0, run, c1, t, i.reply.Captured?, c.clock, i.failures.settling);
    }
  }

  // Promotion to Processing by a callback, and the check after it.
  lemma PromotedRun(cfg: Protocol.Config, c0: Protocol.Cell, run0: seq<Protocol.Label>, c: Protocol.Cell, t: nat,
                    flow: Protocol.Flow, copy: OrderRow)
    returns (run: seq<Protocol.Label>, c': Protocol.Cell)
    requires Protocol.Exec(cfg, c0, run0) == c && t in c.threads && flow in {Protocol.ThreeDsMethod, Protocol.ThreeDsResult}
    requires c.rows.payment.status == Pending && c.threads[t] == Protocol.Promote(flow, c.rows.payment, copy)
    ensures Protocol.Exec(cfg, c0, run) == c' && c'.clock == c.clock && c'.captured == c.captured
    ensures c'.rows == c.rows.(payment := c.rows.payment.(status := Processing))
    ensures t in c'.threads && c'.threads[t] == Protocol.Gateway(flow, c'.rows.payment, copy, false)
  {
    hide Protocol.Exec;
    run, c' := Protocol.Then(cfg, c0, run0, c, Protocol.Act(t, Protocol.Go(0)));
    assert c'.threads[t] == Protocol.Recheck(flow, copy);
    run, c' := Protocol.Then(cfg, c0, run, c', Protocol.Act(t, Protocol.Go(0)));
  }

  // The promotion fails in the database: the thread ends there.
  lemma UnpromotedRun(cfg: Protocol.Config, c0: Protocol.Cell, run0: seq<Protocol.Label>, c: Protocol.Cell, t: nat)
    returns (run: seq<Protocol.Label>)
    requires Protocol.Exec(cfg, c0, run0) == c && t in c.threads && c.threads[t].Promote?
    ensures IsRun(cfg, c0, t, Unchanged(c.rows), c.captured, run)
  {
    hide Protocol.Exec;
    var c1: Protocol.Cell;
    run, c1 := Protocol.Then(cfg, c0, run0, c, Protocol.Act(t, Protocol.Abort));
  }

  // Run alone, the code of a 3DS callback leaves what one run of a protocol thread leaves.
  lemma CallbackIsARun(cfg: Protocol.Config, c: Protocol.Cell, t: nat, i: Input) returns (run: seq<Protocol.Label>)
    requires t !in c.threads && RowOk(c.rows.order) && (i.failures.payment ==> cfg.fallbackWriteMayFail)
    ensures IsRun(cfg, c, t, AfterCallback(c.rows, c.rows.order, i, c.clock),
                  c.captured || (GetsThrough(c.rows.payment.status, i) && Captures(i)), run)
  {
    hide Protocol.Exec, Protocol.Step, AfterAuthentication, RowOk;
    var copy := c.rows.order;
    var c1: Protocol.Cell;
    run, c1 := BegunRun(cfg, c, t, FlowOf(i), Protocol.Go(0));
    if c.rows.payment.status == Pending && i.failures.promotion {
      run := UnpromotedRun(cfg, c, run, c1, t);
      return;
    }
    if c.rows.payment.status == Pending {
      run, c1 := PromotedRun(cfg, c, run, c1, t, FlowOf(i), copy);
    }
    if !PaymentIsTerminal(c.rows.payment.status) {
      run := AuthenticateRun(cfg, c, run, c1, t, copy, i);
    }
  }

  lemma CardIsARun(cfg: Protocol.Config, c: Protocol.Cell, t: nat, hasId: bool, access: Access, reply: Reply, f: Failures)
    returns (run: seq<Protocol.Label>)
    requires t !in c.threads && RowOk(c.rows.order) && (f.payment ==> cfg.fallbackWriteMayFail)
    ensures IsRun(cfg, c, t,
                   AfterCard(c.rows, c.rows.payment.status, c.rows.order, hasId, access, reply, c.clock, f),
                   c.captured || (c.rows.payment.status == Pending && hasId && access.HasAccess? && !f.promotion && reply.Captured?),
                   run)
  {
    hide Protocol.Exec, Protocol.Step, Settled, MarkedFailed, RowOk;
    var copy := c.rows.order;
    var c1: Protocol.Cell;
    var choice := if !hasId || access.NoAccess? then Protocol.MissingId
                  else if access.AccessApiError? then Protocol.GatewayError else Protocol.Go(0);
    run, c1 := BegunRun(cfg, c, t, Protocol.CardExecute, choice);
    if c.rows.payment.status == Pending && choice != Protocol.MissingId {
      if access.AccessApiError? {
        run := MarkedRun(cfg, c, run, c1, t, f);
      } else {
        run := ChargeRun(cfg, c, run, c1, t, copy, reply, f);
      }
    }
  }

  lemma ChargeRun(cfg: Protocol.Config, c0: Protocol.Cell, run0: seq<Protocol.Label>, c: Protocol.Cell, t: nat,
                  copy: OrderRow, reply: Reply, f: Failures)
    returns (run: seq<Protocol.Label>)
    requires Protocol.Exec(cfg, c0, run0) == c && t in c.threads && RowOk(c.rows.order)
    requires c.rows.payment.status == Pending
    requires c.threads[t] == Protocol.Promote(Protocol.CardExecute, c.rows.payment, copy)
    requires f.payment ==> cfg.fallbackWriteMayFail
    ensures IsRun(cfg, c0, t, AfterCard(c.rows, Pending, copy, true, HasAccess, reply, c.clock, f),
                  c.captured || (!f.promotion && reply.Captured?), run)
  {
    hide Protocol.Exec, Settled, MarkedFailed, RowOk,
         Protocol.JobStep, Protocol.OrderMoveStep, CompleteWithOrder, FailWithOrder, FailBoth;
    if f.promotion {
      run := UnpromotedRun(cfg, c0, run0, c, t);
      return;
    }
    var c1: Protocol.Cell;
    run, c1 := Protocol.Then(cfg, c0, run0, c, Protocol.Act(t, Protocol.Go(0)));
    assert c1.rows == c.rows.(payment := c.rows.payment.(status := Processing)) && c1.clock == c.clock && c1.captured == c.captured;
    assert c1.threads[t] == Protocol.Gateway(Protocol.CardExecute, c1.rows.payment, copy, false);
    var choice := match reply
                  case ApiError => Protocol.GatewayError
                  case Captured => Protocol.Captured
                  case _ => Protocol.Declined(0);
    run, c1 := Protocol.Then(cfg, c0, run, c1, Protocol.Act(t, choice));
    if reply.ApiError? {
      run := MarkedRun(cfg, c0, run, c1, t, f);
    } else {
      run := SettledRun(cfg, c0, run, c1, t, reply.Captured?, c.clock, f.settling);
    }
  }
}
