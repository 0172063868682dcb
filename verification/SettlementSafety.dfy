/**
 Safety of the settlement protocol over every run: the two rows agree, each payment
 event fires at most once, and the timestamps are those of the path in order.
 The invariant `Inv` is proved step by step here and read off in `SettlementTheorems`
 and `SettlementEvents`.
 */
module SettlementSafety {
  import opened Common
  import opened Lifecycle
  import opened SettlementRows
  import opened SettlementProtocol

  // ----- the invariant -----

  ghost predicate CopyOk(copy: OrderRow, r: Rows) {
    RowOk(copy) && Precedes(copy, r.order)
  }

  ghost predicate ThreadOk(pc: Pc, r: Rows, clock: nat, lost: bool) {
    match pc
    case Begin(_, _, copy) => CopyOk(copy, r)
    case Promote(_, _, copy) => CopyOk(copy, r)
    case Recheck(_, copy) => CopyOk(copy, r)
    case Gateway(_, _, copy, _) => CopyOk(copy, r)
    case Complete(copy, now, _) => CopyOk(copy, r) && now <= clock
    case Fail(copy, _) => CopyOk(copy, r)
    case FallbackReadOrder => PaymentIsTerminal(r.payment.status) || lost
    case FallbackOrder(copy) => CopyOk(copy, r) && (PaymentIsTerminal(r.payment.status) || lost)
    case Kds(copy, _) => CopyOk(copy, r) && StampsBefore(copy, clock)
    case KdsStamped(copy, target, now) =>
      && CopyOk(copy, r)
      && OrderCanMove(copy.status, target) && IsKitchenStatus(target)
      && now <= clock
      && StampsBefore(copy, now)
    case _ => true
  }

  ghost predicate StampsBefore(row: OrderRow, t: nat) {
    forall k :: k in row.at ==> row.at[k] <= t
  }

  // The timestamps are those of the stamped statuses on the path, ordered along it,
  // `cancelled_at` being comparable with `paid_at` only.
  ghost predicate Timed(o: OrderRow, path: seq<OrderStatus>, clock: nat) {
    && IsPath(path) && path[0] == PendingPayment && path[|path| - 1] == o.status
    && (forall k :: k in o.at <==> k in path && HasStamp(k))
    && StampsBefore(o, clock)
    && StampsOrdered(o)
  }

  ghost predicate StampsOrdered(o: OrderRow) {
    forall a, b :: a in o.at && b in o.at && Reaches(a, b) && (b != Cancelled || a == Paid) ==> o.at[a] <= o.at[b]
  }

  function FinalStatus(e: Event): PaymentStatus {
    if e == CompletedEvent then PaymentStatus.Completed else Failed
  }

  ghost predicate Waiting(c: Cell, t: nat, e: Event) {
    t in c.threads && c.threads[t] == Dispatch(e)
  }

  // The event has been earned: dispatched already or about to be.
  ghost predicate Earned(c: Cell, e: Event) {
    c.fired[e] > 0 || exists t :: Waiting(c, t, e)
  }

  ghost predicate EventOk(c: Cell, e: Event) {
    && c.fired[e] <= 1
    && (forall t, t' :: Waiting(c, t, e) && Waiting(c, t', e) ==> t == t')
    && (forall t :: Waiting(c, t, e) ==> c.fired[e] == 0)
    && (Earned(c, e) ==> c.rows.payment.status == FinalStatus(e) && c.rows.order.status != PendingPayment)
  }

  ghost predicate ThreadsOk(c: Cell) {
    forall t :: t in c.threads ==> ThreadOk(c.threads[t], c.rows, c.clock, c.lost)
  }

  ghost predicate Inv(c: Cell) {
    && Agree(c.rows, c.split, c.lost)
    && Timed(c.rows.order, c.path, c.clock)
    && ThreadsOk(c)
    && EventOk(c, CompletedEvent)
    && EventOk(c, FailedEvent)
  }

  // ----- moving the rows -----

  lemma ThreadOkStable(pc: Pc, r: Rows, r': Rows, clock: nat, clock': nat, lost: bool)
    requires ThreadOk(pc, r, clock, lost) && Evolves(r, r') && clock <= clock'
    ensures ThreadOk(pc, r', clock', lost)
  {
  }

  // Rows that stay put, or change in the payment only, need no new path.
  lemma TimedSame(o: OrderRow, path: seq<OrderStatus>, clock: nat, clock': nat)
    requires Timed(o, path, clock) && clock <= clock'
    ensures Timed(o, path + Entered(o.status, o.status), clock')
  {
    assert path + [] == path;
  }

  // Time `t` is not before any timestamp the one of `s` must follow.
  ghost predicate StampLate(o: OrderRow, s: OrderStatus, t: nat) {
    forall k :: k in o.at && (s != Cancelled || k == Paid) ==> o.at[k] <= t
  }

  // Entering one more status at a time not before the timestamps it must follow.
  lemma TimedEnter(o: OrderRow, path: seq<OrderStatus>, clock: nat, s: OrderStatus, t: nat)
    requires Timed(o, path, clock) && OrderCanMove(o.status, s)
    requires HasStamp(s) ==> t <= clock && StampLate(o, s, t)
    ensures Timed(Enter(o, s, t), path + [s], clock)
  {
    var path' := path + [s];
    var o' := Enter(o, s, t);
    forall i | 0 < i < |path'| ensures OrderCanMove(path'[i - 1], path'[i]) {
    }
    forall k | k in path && HasStamp(k) ensures k != s {
      var i :| 0 <= i < |path| && path[i] == k;
      assert path'[i] == k;
      PathVisitsOnce(path', i, |path|);
    }
    forall k ensures k in o'.at <==> k in path' && HasStamp(k) {
    }
    StampsOrderedEnter(o, s, t, path);
  }

  lemma StampsOrderedEnter(o: OrderRow, s: OrderStatus, t: nat, path: seq<OrderStatus>)
    requires StampsOrdered(o) && OrderCanMove(o.status, s)
    requires IsPath(path) && path[|path| - 1] == o.status && forall k :: k in o.at ==> k in path
    requires HasStamp(s) ==> StampLate(o, s, t)
    ensures StampsOrdered(Enter(o, s, t))
  {
    forall b | b in o.at ensures !Reaches(s, b) {
      var i :| 0 <= i < |path| && path[i] == b;
      PathReaches(path, i, |path| - 1);
    }
  }

  // One thread acts, committing rows that agree; every other thread and every event
  // earned before is undisturbed.
  lemma ActKeepsInv(c: Cell, r': Rows, t: nat, pc: Pc, clock': nat, split': bool)
    requires Inv(c) && t in c.threads && c.clock <= clock'
    requires Agree(r', split', c.lost) && Evolves(c.rows, r')
    requires Timed(r'.order, c.path + Entered(c.rows.order.status, r'.order.status), clock')
    requires ThreadOk(pc, r', clock', c.lost)
    requires !c.threads[t].Dispatch?
    requires pc.Dispatch? ==>
               && !Earned(c, pc.event)
               && r'.payment.status == FinalStatus(pc.event) && r'.order.status != PendingPayment
    ensures Inv(Goto(Commit(c, r'), t, pc).(clock := clock', split := split'))
  {
    var c' := Goto(Commit(c, r'), t, pc).(clock := clock', split := split');
    forall u | u in c'.threads ensures ThreadOk(c'.threads[u], c'.rows, c'.clock, c'.lost) {
      if u != t { ThreadOkStable(c.threads[u], c.rows, r', c.clock, clock', c.lost); }
    }
    EventStays(c, c', t, CompletedEvent);
    EventStays(c, c', t, FailedEvent);
  }

  lemma EventStays(c: Cell, c': Cell, t: nat, e: Event)
    requires EventOk(c, e) && t in c.threads && !c.threads[t].Dispatch?
    requires t in c'.threads && c'.threads == c.threads[t := c'.threads[t]] && c'.fired == c.fired
    requires Evolves(c.rows, c'.rows)
    requires c'.threads[t] == Dispatch(e) ==>
               !Earned(c, e) && c'.rows.payment.status == FinalStatus(e) && c'.rows.order.status != PendingPayment
    ensures EventOk(c', e)
  {
    forall u | Waiting(c', u, e) && u != t ensures Waiting(c, u, e) {
    }
    if Earned(c', e) && c'.threads[t] != Dispatch(e) {
      assert Earned(c, e);
    }
  }

  // A thread moves on without touching the rows.
  lemma GotoKeepsInv(c: Cell, t: nat, pc: Pc)
    requires Inv(c) && t in c.threads && !c.threads[t].Dispatch? && !pc.Dispatch?
    requires ThreadOk(pc, c.rows, c.clock, c.lost)
    ensures Inv(Goto(c, t, pc))
  {
    TimedSame(c.rows.order, c.path, c.clock, c.clock);
    assert c.path + [] == c.path;
    ActKeepsInv(c, c.rows, t, pc, c.clock, c.split);
    assert Goto(Commit(c, c.rows), t, pc).(clock := c.clock, split := c.split) == Goto(c, t, pc);
  }

  // A transaction that wrote the payment row only.
  lemma PaymentKeepsInv(c: Cell, p: PaymentRow, t: nat, pc: Pc, split': bool)
    requires Inv(c) && t in c.threads && !c.threads[t].Dispatch? && !pc.Dispatch?
    requires Agree(c.rows.(payment := p), split', c.lost) && Evolves(c.rows, c.rows.(payment := p))
    requires ThreadOk(pc, c.rows.(payment := p), c.clock, c.lost)
    ensures Inv(Goto(Commit(c, c.rows.(payment := p)), t, pc).(split := split'))
  {
    TimedSame(c.rows.order, c.path, c.clock, c.clock);
    ActKeepsInv(c, c.rows.(payment := p), t, pc, c.clock, split');
    var r' := c.rows.(payment := p);
    assert Goto(Commit(c, r'), t, pc).(clock := c.clock, split := split')
        == Goto(Commit(c, r'), t, pc).(split := split');
  }

  // A transaction that entered one order status.
  lemma EnterKeepsInv(c: Cell, r': Rows, s: OrderStatus, now: nat, t: nat, pc: Pc, clock': nat)
    requires Inv(c) && t in c.threads && !c.threads[t].Dispatch? && c.clock <= clock'
    requires Agree(r', c.split, c.lost) && Evolves(c.rows, r')
    requires OrderCanMove(c.rows.order.status, s) && r'.order == Enter(c.rows.order, s, now)
    requires HasStamp(s) ==> now <= clock' && StampLate(c.rows.order, s, now)
    requires ThreadOk(pc, r', clock', c.lost)
    requires pc.Dispatch? ==>
               && !Earned(c, pc.event)
               && r'.payment.status == FinalStatus(pc.event) && r'.order.status != PendingPayment
    ensures Inv(Goto(Commit(c, r'), t, pc).(clock := clock'))
  {
    TimedSame(c.rows.order, c.path, c.clock, clock');
    assert c.path + [] == c.path;
    TimedEnter(c.rows.order, c.path, clock', s, now);
    ActKeepsInv(c, r', t, pc, clock', c.split);
    assert Goto(Commit(c, r'), t, pc).(clock := clock', split := c.split)
        == Goto(Commit(c, r'), t, pc).(clock := clock');
  }

  // A pending order carries no timestamp and has earned no event.
  lemma PendingIsFresh(c: Cell)
    requires Inv(c) && c.rows.order.status == PendingPayment
    ensures c.rows.order.at == map[]
    ensures !Earned(c, CompletedEvent) && !Earned(c, FailedEvent)
  {
    forall k | k in c.rows.order.at ensures false {
    }
  }

  // A transaction that settled the payment of an order no longer pending.
  lemma TerminalKeepsInv(c: Cell, s: PaymentStatus, t: nat, pc: Pc)
    requires Inv(c) && t in c.threads && !c.threads[t].Dispatch?
    requires c.rows.order.status != PendingPayment && PaymentIsTerminal(s)
    requires c.rows.payment.status == s || !PaymentIsTerminal(c.rows.payment.status)
    requires pc == Done || (pc.Dispatch? && FinalStatus(pc.event) == s && c.rows.payment.status != s)
    ensures Inv(Goto(Commit(c, c.rows.(payment := c.rows.payment.(status := s))), t, pc))
  {
    var r' := c.rows.(payment := c.rows.payment.(status := s));
    TimedSame(c.rows.order, c.path, c.clock, c.clock);
    ActKeepsInv(c, r', t, pc, c.clock, c.split);
    assert Goto(Commit(c, r'), t, pc).(clock := c.clock, split := c.split) == Goto(Commit(c, r'), t, pc);
  }

  // ----- each kind of step -----

  lemma CompleteKeepsInv(c: Cell, t: nat)
    requires Inv(c) && t in c.threads && c.threads[t].Complete?
    ensures var pc := c.threads[t];
            Inv(AfterTx(c, t, CompleteWithOrder(c.rows, pc.copy, pc.now), pc.notify, CompletedEvent))
  {
    var Complete(copy, now, notify) := c.threads[t];
    CompleteMeaning(c.rows, c.split, c.lost, copy, now);
    if CompleteWithOrder(c.rows, copy, now).Aborted? {
      GotoKeepsInv(c, t, Done);
    } else {
      PendingIsFresh(c);
      var r' := CompleteWithOrder(c.rows, copy, now).rows;
      var pc := if notify then Dispatch(CompletedEvent) else Done;
      EnterKeepsInv(c, r', Paid, now, t, pc, c.clock);
      assert Goto(Commit(c, r'), t, pc).(clock := c.clock) == Goto(Commit(c, r'), t, pc);
    }
  }

  lemma FailKeepsInv(c: Cell, t: nat)
    requires Inv(c) && t in c.threads && c.threads[t].Fail?
    ensures var pc := c.threads[t];
            Inv(AfterTx(c, t, FailWithOrder(c.rows, pc.copy), pc.notify, FailedEvent))
  {
    var Fail(copy, notify) := c.threads[t];
    FailMeaning(c.rows, c.split, c.lost, copy);
    if FailWithOrder(c.rows, copy).Aborted? {
      GotoKeepsInv(c, t, Done);
    } else {
      PendingIsFresh(c);
      var r' := FailWithOrder(c.rows, copy).rows;
      var pc := if notify then Dispatch(FailedEvent) else Done;
      EnterKeepsInv(c, r', PaymentFailed, 0, t, pc, c.clock);
      assert Goto(Commit(c, r'), t, pc).(clock := c.clock) == Goto(Commit(c, r'), t, pc);
    }
  }

  lemma FailBothKeepsInv(c: Cell, t: nat)
    requires Inv(c) && t in c.threads && c.threads[t].FailingBoth? && FailBoth(c.rows).Committed?
    ensures Inv(Goto(Commit(c, FailBoth(c.rows).rows), t, Done))
  {
    FailBothMeaning(c.rows, c.split, c.lost);
    var r' := FailBoth(c.rows).rows;
    if c.rows.order.status == PendingPayment {
      PendingIsFresh(c);
      EnterKeepsInv(c, r', PaymentFailed, 0, t, Done, c.clock);
      assert Goto(Commit(c, r'), t, Done).(clock := c.clock) == Goto(Commit(c, r'), t, Done);
    } else {
      TerminalKeepsInv(c, Failed, t, Done);
    }
  }

  // The clock was read when the copy already carried every timestamp the new one
  // must follow: apart from Cancelled, a target has one predecessor, so a permitted
  // move means the copy is fresh after all.
  lemma KitchenStampLate(r: Rows, copy: OrderRow, target: OrderStatus, now: nat)
    requires CopyOk(copy, r) && StampsBefore(copy, now) && IsKitchenStatus(target)
    requires OrderCanMove(copy.status, target) && OrderCanMove(r.order.status, target)
    ensures StampLate(r.order, target, now)
  {
    if target == Cancelled {
      assert Paid in copy.at && r.order.at[Paid] == copy.at[Paid];
    } else {
      assert r.order.status == copy.status;
    }
  }

  lemma OrderMoveKeepsInv(c: Cell, t: nat, copy: OrderRow, target: OrderStatus, now: nat, ch: Choice)
    requires Inv(c) && t in c.threads && !c.threads[t].Dispatch?
    requires CopyOk(copy, c.rows) && target != Paid
    requires target == PaymentFailed ==> PaymentIsTerminal(c.rows.payment.status) || c.lost
    requires OrderCanMove(c.rows.order.status, target) && HasStamp(target) ==>
               now <= c.clock && StampLate(c.rows.order, target, now)
    ensures Inv(OrderMoveStep(c, t, copy, target, now, ch))
  {
    hide Inv;
    InvAgree(c);
    OrderMoveMeaning(c.rows, c.split, c.lost, copy, target, now);
    if ch.Abort? || !OrderCanMove(c.rows.order.status, target) {
      GotoKeepsInv(c, t, Done);
    } else {
      var r' := c.rows.(order := Enter(c.rows.order, target, now));
      EnterKeepsInv(c, r', target, now, t, Done, c.clock);
      assert Goto(Commit(c, r'), t, Done).(clock := c.clock) == Goto(Commit(c, r'), t, Done);
    }
  }

  lemma KdsStampedKeepsInv(c: Cell, t: nat, ch: Choice)
    requires Inv(c) && t in c.threads && c.threads[t].KdsStamped?
    ensures var pc := c.threads[t]; Inv(OrderMoveStep(c, t, pc.copy, pc.target, pc.now, ch))
  {
    hide Inv;
    InvThread(c, t);
    var KdsStamped(copy, target, now) := c.threads[t];
    if OrderCanMove(c.rows.order.status, target) {
      KitchenStampLate(c.rows, copy, target, now);
    }
    OrderMoveKeepsInv(c, t, copy, target, now, ch);
  }

  lemma FallbackOrderKeepsInv(c: Cell, t: nat, ch: Choice)
    requires Inv(c) && t in c.threads && c.threads[t].FallbackOrder?
    ensures Inv(OrderMoveStep(c, t, c.threads[t].copy, PaymentFailed, 0, ch))
  {
    hide Inv;
    InvThread(c, t);
    OrderMoveKeepsInv(c, t, c.threads[t].copy, PaymentFailed, 0, ch);
  }

  // The fallback's payment write fails by itself.
  lemma LostKeepsInv(c: Cell, t: nat)
    requires Inv(c) && t in c.threads && c.threads[t].FallbackPayment?
    ensures Inv(Goto(c.(lost := true), t, FallbackReadOrder))
  {
    var c1 := c.(lost := true);
    assert forall e, u :: Waiting(c1, u, e) <==> Waiting(c, u, e);
    assert forall e :: Earned(c1, e) ==> Earned(c, e);
    forall u | u in c1.threads ensures ThreadOk(c1.threads[u], c1.rows, c1.clock, true) {
      assert ThreadOk(c.threads[u], c.rows, c.clock, c.lost);
    }
    GotoKeepsInv(c1, t, FallbackReadOrder);
  }

  lemma FallbackPaymentKeepsInv(cfg: Config, c: Cell, t: nat, ch: Choice)
    requires Inv(c) && t in c.threads && c.threads[t].FallbackPayment?
    ensures Inv(FallbackPaymentStep(cfg, c, t, ch))
  {
    hide Inv;
    if cfg.fallbackWriteMayFail && ch.Abort? {
      LostKeepsInv(c, t);
      return;
    }
    InvAgree(c);
    PaymentMoveMeaning(c.rows, c.split, c.lost, Failed);
    match PaymentTo(c.rows.payment, Failed)
    case None => GotoKeepsInv(c, t, FallbackReadOrder);
    case Some(p) =>
      var split' := c.split || p != c.rows.payment;
      var r' := c.rows.(payment := p);
      assert r' != c.rows <==> p != c.rows.payment;
      PaymentKeepsInv(c, p, t, FallbackReadOrder, split');
      assert Goto(Commit(c, r').(split := split'), t, FallbackReadOrder)
          == Goto(Commit(c, r'), t, FallbackReadOrder).(split := split');
  }

  lemma PromoteKeepsInv(c: Cell, t: nat, ch: Choice)
    requires Inv(c) && t in c.threads && c.threads[t].Promote?
    ensures var pc := c.threads[t]; Inv(PromoteStep(c, t, pc.flow, pc.pay, pc.copy, ch))
  {
    hide Inv;
    InvAgree(c);
    InvThread(c, t);
    var Promote(flow, pay, copy) := c.threads[t];
    PaymentMoveMeaning(c.rows, c.split, c.lost, Processing);
    match PaymentTo(c.rows.payment, Processing)
    case None => GotoKeepsInv(c, t, Done);
    case Some(p) =>
      GotoKeepsInv(c, t, Done);
      var r' := c.rows.(payment := p);
      var pc := match flow
                case InitiatePayPay => Done
                case ThreeDsMethod => Recheck(flow, copy)
                case ThreeDsResult => Recheck(flow, copy)
                case _ => Gateway(flow, p, copy, false);
      PaymentKeepsInv(c, p, t, pc, c.split);
      assert Goto(Commit(c, r'), t, pc).(split := c.split) == Goto(Commit(c, r'), t, pc);
  }

  // Saving gateway columns through a stale payment object never rewrites its status.
  lemma SaveRefsKeepsInv(c: Cell, t: nat, pay: PaymentRow, ch: Choice, pc: Pc)
    requires Inv(c) && t in c.threads && !c.threads[t].Dispatch? && !pc.Dispatch?
    requires match pc
             case Done => true
             case Promote(_, _, copy) => CopyOk(copy, c.rows)
             case Gateway(_, _, copy, _) => CopyOk(copy, c.rows)
             case Fail(copy, _) => CopyOk(copy, c.rows)
             case _ => false
    ensures Inv(Goto(SaveRefs(c, pay, ch), t, pc))
  {
    if ch.Authenticated? || ch.Challenge? || ch.Declined? {
      var p := SavePaymentDirty(c.rows.payment, pay, pay.(refs := ch.refs));
      PaymentKeepsInv(c, p, t, pc, c.split);
      var r' := c.rows.(payment := p);
      assert Goto(Commit(c, r'), t, pc).(split := c.split) == Goto(Commit(c, r'), t, pc);
    } else {
      GotoKeepsInv(c, t, pc);
    }
  }

  lemma CapturedKeepsInv(c: Cell, t: nat)
    requires Inv(c) && t in c.threads && c.threads[t].Gateway?
    ensures var pc := c.threads[t];
            Inv(Goto(c.(captured := true), t, Complete(pc.copy, c.clock, pc.flow != PayPayConfirm)))
  {
    var c1 := c.(captured := true);
    assert forall e, u :: Waiting(c1, u, e) <==> Waiting(c, u, e);
    assert forall e :: Earned(c1, e) ==> Earned(c, e);
    GotoKeepsInv(c1, t, Complete(c.threads[t].copy, c.clock, c.threads[t].flow != PayPayConfirm));
  }

  lemma ThreeDsReplyKeepsInv(c: Cell, t: nat, ch: Choice)
    requires Inv(c) && t in c.threads && c.threads[t].Gateway?
    ensures var pc := c.threads[t]; Inv(ThreeDsReply(c, t, pc.flow, pc.pay, pc.copy, pc.capture, ch))
  {
    hide Inv;
    InvThread(c, t);
    var Gateway(flow, pay, copy, capture) := c.threads[t];
    if ch.MissingId? {
      GotoKeepsInv(c, t, FailingBoth);
    } else if capture {
      GotoKeepsInv(c, t, Fail(copy, true));
    } else {
      SaveRefsKeepsInv(c, t, pay, ch,
                       if ch.Authenticated? then Gateway(flow, pay, copy, true)
                       else if ch.Challenge? && flow == ThreeDsMethod then Done
                       else Fail(copy, true));
    }
  }

  lemma PlainReplyKeepsInv(c: Cell, t: nat, pc: Pc)
    requires Inv(c) && t in c.threads && c.threads[t].Gateway?
    requires pc == FailingBoth || pc == Done || (pc.Fail? && pc.copy == c.threads[t].copy)
    ensures Inv(Goto(c, t, pc))
  {
    hide Inv;
    InvThread(c, t);
    GotoKeepsInv(c, t, pc);
  }

  lemma InitiationReplyKeepsInv(c: Cell, t: nat, ch: Choice)
    requires Inv(c) && t in c.threads && c.threads[t].Gateway?
    ensures var pc := c.threads[t];
            && Inv(Goto(SaveRefs(c, pc.pay, ch), t, Done))
            && Inv(Goto(SaveRefs(c, pc.pay, ch), t, Promote(pc.flow, pc.pay, pc.copy)))
  {
    hide Inv;
    InvThread(c, t);
    var Gateway(flow, pay, copy, capture) := c.threads[t];
    SaveRefsKeepsInv(c, t, pay, ch, Done);
    SaveRefsKeepsInv(c, t, pay, ch, Promote(flow, pay, copy));
  }

  lemma GatewayKeepsInv(c: Cell, t: nat, ch: Choice)
    requires Inv(c) && t in c.threads && c.threads[t].Gateway?
    ensures var pc := c.threads[t]; Inv(GatewayStep(c, t, pc.flow, pc.pay, pc.copy, pc.capture, ch))
  {
    hide Inv;
    var Gateway(flow, pay, copy, capture) := c.threads[t];
    if ch.GatewayError? {
      PlainReplyKeepsInv(c, t, FailingBoth);
    } else if ch.Captured? && MayCapture(flow, capture) {
      CapturedKeepsInv(c, t);
    } else {
      match flow
      case PayPayConfirm => PlainReplyKeepsInv(c, t, if ch.StillPending? then Done else Fail(copy, false));
      case CardExecute => PlainReplyKeepsInv(c, t, Fail(copy, true));
      case ThreeDsExecute => PlainReplyKeepsInv(c, t, Done);
      case InitiateCard => InitiationReplyKeepsInv(c, t, ch);
      case InitiatePayPay => InitiationReplyKeepsInv(c, t, ch);
      case _ => ThreeDsReplyKeepsInv(c, t, ch);
    }
  }

  lemma DispatchKeepsInv(c: Cell, t: nat)
    requires Inv(c) && t in c.threads && c.threads[t].Dispatch?
    ensures Inv(Goto(c.(fired := c.fired + multiset{c.threads[t].event}), t, Done))
  {
    var e := c.threads[t].event;
    var c' := Goto(c.(fired := c.fired + multiset{e}), t, Done);
    assert Waiting(c, t, e) && Earned(c, e);
    forall x: Event ensures EventOk(c', x) {
      forall u | Waiting(c', u, x) ensures Waiting(c, u, x) && u != t {
      }
      if x != e {
        assert c'.fired[x] == c.fired[x];
        if Earned(c', x) { assert Earned(c, x); }
      }
    }
  }

  // The webhook settles a payment in process: Paid and Accepted in one transaction.
  lemma SettlingHookKeepsInv(c: Cell, t: nat, later: nat)
    requires Inv(c) && t in c.threads && c.threads[t].Job? && c.clock <= later
    requires c.rows.payment.status == Processing && c.rows.order.status == PendingPayment
    ensures var r' := WebhookCompleted(c.rows, c.clock, later).rows;
            Inv(Goto(Commit(c, r'), t, Dispatch(CompletedEvent)).(clock := later, split := c.split))
  {
    var r' := WebhookCompleted(c.rows, c.clock, later).rows;
    WebhookCompletedMeaning(c.rows, c.split, c.lost, c.clock, later);
    PendingIsFresh(c);
    TimedTwice(c.rows.order, c.path, c.clock, later);
    ActKeepsInv(c, r', t, Dispatch(CompletedEvent), later, c.split);
  }

  lemma TimedTwice(o: OrderRow, path: seq<OrderStatus>, clock: nat, later: nat)
    requires Timed(o, path, clock) && o.status == PendingPayment && o.at == map[] && clock <= later
    ensures Timed(Enter(Enter(o, Paid, clock), Accepted, later), path + [Paid, Accepted], later)
  {
    TimedSame(o, path, clock, later);
    assert path + [] == path;
    TimedEnter(o, path, later, Paid, clock);
    TimedEnter(Enter(o, Paid, clock), path + [Paid], later, Accepted, later);
    assert path + [Paid] + [Accepted] == path + [Paid, Accepted];
  }

  // The webhook finds the payment completed by someone else.
  lemma LateHookKeepsInv(c: Cell, t: nat, paid: nat)
    requires Inv(c) && t in c.threads && c.threads[t].Job? && paid <= c.clock
    requires c.rows.payment.status == PaymentStatus.Completed
    ensures var tx := WebhookCompleted(c.rows, paid, c.clock);
            tx.Committed? && !tx.fires && Inv(Goto(Commit(c, tx.rows), t, Done))
  {
    var tx := WebhookCompleted(c.rows, paid, c.clock);
    WebhookCompletedMeaning(c.rows, c.split, c.lost, paid, c.clock);
    if c.rows.order.status == Paid {
      EnterKeepsInv(c, tx.rows, Accepted, c.clock, t, Done, c.clock);
      assert Goto(Commit(c, tx.rows), t, Done).(clock := c.clock) == Goto(Commit(c, tx.rows), t, Done);
    } else {
      SameRowsKeepInv(c, t);
    }
  }

  lemma CompletedHookKeepsInv(c: Cell, t: nat, elapsed: nat)
    requires Inv(c) && t in c.threads && c.threads[t].Job?
    ensures Inv(AfterTx(c.(clock := c.clock + elapsed), t,
                        WebhookCompleted(c.rows, c.clock, c.clock + elapsed), true, CompletedEvent))
  {
    hide Inv;
    var later := c.clock + elapsed;
    var tx := WebhookCompleted(c.rows, c.clock, later);
    var c1 := c.(clock := later);
    TickKeepsInv(c, elapsed);
    InvAgree(c);
    WebhookCompletedMeaning(c.rows, c.split, c.lost, c.clock, later);
    if c.rows.payment.status == Processing && c.rows.order.status == PendingPayment {
      SettlingHookKeepsInv(c, t, later);
      assert Goto(Commit(c, tx.rows), t, Dispatch(CompletedEvent)).(clock := later, split := c.split)
          == Goto(Commit(c1, tx.rows), t, Dispatch(CompletedEvent));
    } else if c.rows.payment.status == Processing {
      TerminalKeepsInv(c1, PaymentStatus.Completed, t, Dispatch(CompletedEvent));
    } else if c.rows.payment.status == PaymentStatus.Completed {
      LateHookKeepsInv(c1, t, c.clock);
    } else {
      GotoKeepsInv(c1, t, Done);
    }
  }

  // A transaction that committed the rows as they were.
  lemma SameRowsKeepInv(c: Cell, t: nat)
    requires Inv(c) && t in c.threads && !c.threads[t].Dispatch?
    ensures Inv(Goto(Commit(c, c.rows), t, Done))
  {
    assert c.path + [] == c.path;
    GotoKeepsInv(c, t, Done);
    assert Commit(c, c.rows) == c;
  }

  lemma FailedHookKeepsInv(c: Cell, t: nat)
    requires Inv(c) && t in c.threads && c.threads[t].Job?
    ensures Inv(AfterTx(c, t, WebhookFailed(c.rows), true, FailedEvent))
  {
    WebhookFailedMeaning(c.rows, c.split, c.lost);
    var tx := WebhookFailed(c.rows);
    if c.rows.order.status == PendingPayment {
      PendingIsFresh(c);
      var pc := if tx.fires then Dispatch(FailedEvent) else Done;
      EnterKeepsInv(c, tx.rows, PaymentFailed, 0, t, pc, c.clock);
      assert Goto(Commit(c, tx.rows), t, pc).(clock := c.clock) == Goto(Commit(c, tx.rows), t, pc);
    } else if PaymentIsTerminal(c.rows.payment.status) {
      SameRowsKeepInv(c, t);
    } else {
      TerminalKeepsInv(c, Failed, t, Dispatch(FailedEvent));
    }
  }

  lemma RefundedHookKeepsInv(c: Cell, t: nat)
    requires Inv(c) && t in c.threads && c.threads[t].Job?
    ensures Inv(AfterTx(c, t, WebhookRefunded(c.rows), false, CompletedEvent))
  {
    hide Inv;
    InvAgree(c);
    WebhookRefundedMeaning(c.rows, c.split, c.lost);
    var tx := WebhookRefunded(c.rows);
    if c.rows.order.status == Cancelled {
      EnterKeepsInv(c, tx.rows, Refunded, 0, t, Done, c.clock);
      assert Goto(Commit(c, tx.rows), t, Done).(clock := c.clock) == Goto(Commit(c, tx.rows), t, Done);
    } else {
      SameRowsKeepInv(c, t);
    }
  }

  lemma TickKeepsInv(c: Cell, elapsed: nat)
    requires Inv(c)
    ensures Inv(c.(clock := c.clock + elapsed))
  {
    var c' := c.(clock := c.clock + elapsed);
    forall t | t in c'.threads ensures ThreadOk(c'.threads[t], c'.rows, c'.clock, c'.lost) {
      ThreadOkStable(c.threads[t], c.rows, c.rows, c.clock, c'.clock, c.lost);
    }
    assert forall t, e :: Waiting(c', t, e) <==> Waiting(c, t, e);
    assert forall e :: Earned(c', e) ==> Earned(c, e);
  }

  lemma StartKeepsInv(c: Cell, t: nat, pc: Pc)
    requires Inv(c) && t !in c.threads && !pc.Dispatch? && ThreadOk(pc, c.rows, c.clock, c.lost)
    ensures Inv(Goto(c, t, pc))
  {
    var c' := Goto(c, t, pc);
    assert forall u, e :: Waiting(c', u, e) <==> Waiting(c, u, e);
    assert forall e :: Earned(c', e) ==> Earned(c, e);
  }

  lemma InvThread(c: Cell, t: nat)
    requires Inv(c) && t in c.threads
    ensures ThreadOk(c.threads[t], c.rows, c.clock, c.lost)
  {
  }

  lemma InvAgree(c: Cell)
    requires Inv(c)
    ensures Agree(c.rows, c.split, c.lost)
  {
  }

  lemma InvOwnCopy(c: Cell)
    requires Inv(c)
    ensures CopyOk(c.rows.order, c.rows) && StampsBefore(c.rows.order, c.clock)
  {
  }

  // Steps that only read, or give up.
  lemma ReadKeepsInv(cfg: Config, c: Cell, t: nat, ch: Choice)
    requires Inv(c) && t in c.threads
    requires var pc := c.threads[t];
             pc.Begin? || pc.Recheck? || pc.FallbackRefresh? || pc.FallbackReadOrder? || pc.Kds?
    ensures Inv(ActStep(cfg, c, t, ch))
  {
    hide Inv;
    InvThread(c, t);
    InvOwnCopy(c);
    match c.threads[t]
    case Begin(flow, pay, copy) => GotoKeepsInv(c, t, AfterBegin(flow, pay, copy, ch));
    case Recheck(flow, copy) =>
      GotoKeepsInv(c, t, if c.rows.payment.status == Processing then Gateway(flow, c.rows.payment, copy, false) else Done);
    case FallbackRefresh =>
      GotoKeepsInv(c, t, if PaymentIsTerminal(c.rows.payment.status) then FallbackReadOrder else FallbackPayment);
    case FallbackReadOrder =>
      GotoKeepsInv(c, t, if c.rows.order.status == PendingPayment then FallbackOrder(c.rows.order) else Done);
    case Kds(copy, target) =>
      GotoKeepsInv(c, t, if OrderCanMove(copy.status, target) && IsKitchenStatus(target)
                         then KdsStamped(copy, target, c.clock) else Done);
  }

  lemma PairTxKeepsInv(cfg: Config, c: Cell, t: nat, ch: Choice)
    requires Inv(c) && t in c.threads
    requires var pc := c.threads[t]; pc.Complete? || pc.Fail? || pc.FailingBoth?
    ensures Inv(ActStep(cfg, c, t, ch))
  {
    hide Inv;
    GotoKeepsInv(c, t, Done);
    GotoKeepsInv(c, t, FallbackRefresh);
    match c.threads[t]
    case Complete(_, _, _) => CompleteKeepsInv(c, t);
    case Fail(_, _) => FailKeepsInv(c, t);
    case _ => if FailBoth(c.rows).Committed? { FailBothKeepsInv(c, t); }
  }

  lemma RetryKeepsInv(c: Cell, t: nat)
    requires Inv(c) && t in c.threads && c.threads[t].Job?
    ensures var pc := c.threads[t];
            Inv(Goto(c, t, if pc.attempt < JOB_TRIES then Job(pc.kind, pc.attempt + 1) else Done))
  {
    hide Inv;
    var Job(kind, attempt) := c.threads[t];
    GotoKeepsInv(c, t, if attempt < JOB_TRIES then Job(kind, attempt + 1) else Done);
  }

  lemma JobKeepsInv(c: Cell, t: nat, ch: Choice)
    requires Inv(c) && t in c.threads && c.threads[t].Job?
    ensures var pc := c.threads[t]; Inv(JobStep(c, t, pc.kind, pc.attempt, ch))
  {
    hide Inv;
    if ch.Abort? {
      RetryKeepsInv(c, t);
    } else {
      match c.threads[t].kind
      case CompletedHook => CompletedHookKeepsInv(c, t, if ch.Go? then ch.elapsed else 0);
      case FailedHook => FailedHookKeepsInv(c, t);
      case RefundedHook => RefundedHookKeepsInv(c, t);
    }
  }

  lemma ActStepKeepsInv(cfg: Config, c: Cell, t: nat, ch: Choice)
    requires Inv(c) && t in c.threads
    ensures Inv(ActStep(cfg, c, t, ch))
  {
    hide Inv;
    match c.threads[t]
    case Promote(_, _, _) => PromoteKeepsInv(c, t, ch);
    case Gateway(_, _, _, _) => GatewayKeepsInv(c, t, ch);
    case Complete(_, _, _) => PairTxKeepsInv(cfg, c, t, ch);
    case Fail(_, _) => PairTxKeepsInv(cfg, c, t, ch);
    case FailingBoth => PairTxKeepsInv(cfg, c, t, ch);
    case FallbackPayment => FallbackPaymentKeepsInv(cfg, c, t, ch);
    case FallbackOrder(_) => FallbackOrderKeepsInv(c, t, ch);
    case Dispatch(_) => DispatchKeepsInv(c, t);
    case Job(_, _) => JobKeepsInv(c, t, ch);
    case KdsStamped(_, _, _) => KdsStampedKeepsInv(c, t, ch);
    case Done =>
    case _ => ReadKeepsInv(cfg, c, t, ch);
  }

  lemma StepKeepsInv(cfg: Config, c: Cell, l: Label)
    requires Inv(c)
    ensures Inv(Step(cfg, c, l))
  {
    hide Inv, ActStep;
    InvOwnCopy(c);
    match l
    case Tick(seconds) => TickKeepsInv(c, seconds);
    case StartFlow(t, flow) =>
      if t !in c.threads { StartKeepsInv(c, t, Begin(flow, c.rows.payment, c.rows.order)); }
    case StartJob(t, kind) =>
      if t !in c.threads { StartKeepsInv(c, t, Job(kind, 1)); }
    case StartKds(t, target) =>
      if t !in c.threads { StartKeepsInv(c, t, Kds(c.rows.order, target)); }
    case Act(t, choice) =>
      if t in c.threads { ActStepKeepsInv(cfg, c, t, choice); }
  }

  lemma {:induction false} RunKeepsInv(cfg: Config, total: nat, clock: nat, run: seq<Label>)
    ensures Inv(Exec(cfg, Initial(total, clock), run))
    decreases |run|
  {
    if run == [] {
      assert IsPath([PendingPayment]);
    } else {
      RunKeepsInv(cfg, total, clock, run[..|run| - 1]);
      StepKeepsInv(cfg, Exec(cfg, Initial(total, clock), run[..|run| - 1]), run[|run| - 1]);
    }
  }
}
