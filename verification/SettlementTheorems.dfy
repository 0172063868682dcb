/**
 What the settlement protocol guarantees over every run, read off the invariant, and
 concrete runs for what it does not guarantee.
 */
module SettlementTheorems {
  import opened Lifecycle
  import opened SettlementRows
  import opened SettlementProtocol
  import opened SettlementSafety

  // ----- agreement -----

  // Payment and order tell the same story; `split` runs allow a Failed payment whose
  // order has not been marked yet.
  ghost predicate Agreement(c: Cell) {
    var p, o := c.rows.payment.status, c.rows.order.status;
    && (p == PaymentStatus.Completed <==> IsPaidFamily(o))
    && (o == PaymentFailed ==> p == Failed)
    && (p == Failed ==> o in {PendingPayment, PaymentFailed})
    && (p in {Pending, Processing} ==> o == PendingPayment)
    && c.rows.payment.amount == c.rows.order.total
  }

  // What is left of it once a fallback's payment write has been lost: an order may be
  // marked PaymentFailed whatever becomes of its payment.
  ghost predicate WeakAgreement(c: Cell) {
    var p, o := c.rows.payment.status, c.rows.order.status;
    && (IsPaidFamily(o) ==> p == PaymentStatus.Completed)
    && (p == PaymentStatus.Completed ==> IsPaidFamily(o) || o == PaymentFailed)
    && (p == Failed ==> o in {PendingPayment, PaymentFailed})
    && (p in {Pending, Processing} ==> o in {PendingPayment, PaymentFailed})
    && c.rows.payment.amount == c.rows.order.total
  }

  lemma RowsAgree(cfg: Config, total: nat, clock: nat, run: seq<Label>)
    ensures var c := Exec(cfg, Initial(total, clock), run);
            && WeakAgreement(c)
            && (!c.lost ==> Agreement(c))
            && (!c.lost && !c.split ==> (c.rows.payment.status == Failed <==> c.rows.order.status == PaymentFailed))
            && (c.lost ==> cfg.fallbackWriteMayFail)
  {
    RunKeepsInv(cfg, total, clock, run);
    LostNeedsFailingWrite(cfg, Initial(total, clock), run);
    InvAgree(Exec(cfg, Initial(total, clock), run));
    hide Inv, Exec;
  }

  lemma {:induction false} LostNeedsFailingWrite(cfg: Config, c: Cell, run: seq<Label>)
    requires !c.lost
    ensures Exec(cfg, c, run).lost ==> cfg.fallbackWriteMayFail
    decreases |run|
  {
    if run != [] {
      var front := run[..|run| - 1];
      LostNeedsFailingWrite(cfg, c, front);
      StepLoses(cfg, Exec(cfg, c, front), run[|run| - 1]);
      hide Step;
    }
  }

  lemma StepLoses(cfg: Config, c: Cell, l: Label)
    ensures Step(cfg, c, l).lost ==> c.lost || cfg.fallbackWriteMayFail
  {
    hide OrderTo, PaymentTo, CompleteWithOrder, FailWithOrder, FailBoth, WebhookCompleted, WebhookFailed,
         WebhookRefunded, SavePaymentDirty, Entered, AfterBegin;
  }

  // The agreement holds on all runs exactly when the fallback's payment write can be
  // stopped by the status guard only.
  lemma AgreementIffFallbackWrites(cfg: Config)
    ensures (forall total, clock, run :: Agreement(Exec(cfg, Initial(total, clock), run)))
            <==> !cfg.fallbackWriteMayFail
  {
    if cfg.fallbackWriteMayFail {
      var run := DisagreeingRun(cfg);
      assert !Agreement(Exec(cfg, Initial(0, 0), run));
    } else {
      forall total, clock, run ensures Agreement(Exec(cfg, Initial(total, clock), run)) {
        RowsAgree(cfg, total, clock, run);
      }
    }
  }

  // ----- what the history flags stand for -----

  ghost predicate NoAborts(run: seq<Label>) {
    forall l :: l in run ==> !(l.Act? && l.choice.Abort?)
  }

  // No fallback has written a payment alone, and none is about to: a handler that gets
  // as far has found the payment final.
  ghost predicate NoFallback(c: Cell) {
    && !c.split
    && forall t :: t in c.threads ==> ThreadFallsNot(c, c.threads[t])
  }

  predicate ThreadFallsNot(c: Cell, pc: Pc) {
    !pc.FallbackPayment? && (pc.FallbackRefresh? ==> PaymentIsTerminal(c.rows.payment.status))
  }

  lemma StepKeepsNoFallback(cfg: Config, c: Cell, l: Label)
    requires NoFallback(c) && RowOk(c.rows.order) && !(l.Act? && l.choice.Abort?)
    ensures NoFallback(Step(cfg, c, l))
  {
    StepKeepsTerminal(cfg, c, l);
    StepMovesOne(cfg, c, l);
    if l.Act? && l.t in c.threads { ActFallsNot(cfg, c, l.t, l.choice); }
    hide Step, ActStep, RowOk;
  }

  lemma StepMovesOne(cfg: Config, c: Cell, l: Label)
    ensures var c' := Step(cfg, c, l);
            && (forall t :: t in c.threads && !(l.Act? && l.t == t) ==> t in c'.threads && c'.threads[t] == c.threads[t])
            && (forall t :: t in c'.threads && t !in c.threads ==> ThreadFallsNot(c', c'.threads[t]))
            && (!(l.Act? && l.t in c.threads) ==> c'.split == c.split && c'.threads.Keys >= c.threads.Keys)
  {
    if l.Act? && l.t in c.threads {
      ActMovesOne(cfg, c, l.t, l.choice);
    }
    hide ActStep;
  }

  ghost predicate MovesOnly(c: Cell, c': Cell, t: nat) {
    c'.threads.Keys == c.threads.Keys && forall u :: u in c.threads && u != t ==> c'.threads[u] == c.threads[u]
  }

  // Only thread `t` moves, and not into the fallback.
  ghost predicate IsQuiet(c: Cell, c': Cell, t: nat) {
    && MovesOnly(c, c', t) && c'.split == c.split
    && t in c'.threads && !c'.threads[t].FallbackPayment? && !c'.threads[t].FallbackRefresh?
  }

  lemma AfterTxIsQuiet(c: Cell, t: nat, tx: TxResult, notify: bool, event: Event)
    requires t in c.threads
    ensures IsQuiet(c, AfterTx(c, t, tx, notify, event), t)
  {
    hide Entered;
  }

  lemma OrderMoveIsQuiet(c: Cell, t: nat, copy: OrderRow, s: OrderStatus, now: nat, ch: Choice)
    requires t in c.threads
    ensures IsQuiet(c, OrderMoveStep(c, t, copy, s, now, ch), t)
  {
    hide Entered, OrderTo;
  }

  lemma JobIsQuiet(c: Cell, t: nat, kind: WebhookKind, attempt: nat, ch: Choice)
    requires t in c.threads
    ensures IsQuiet(c, JobStep(c, t, kind, attempt, ch), t)
  {
    hide AfterTx, WebhookCompleted, WebhookFailed, WebhookRefunded;
    if !ch.Abort? {
      var later := c.(clock := c.clock + (if ch.Go? then ch.elapsed else 0));
      match kind
      case CompletedHook =>
        AfterTxIsQuiet(later, t, WebhookCompleted(c.rows, c.clock, later.clock), true, CompletedEvent);
      case FailedHook => AfterTxIsQuiet(c, t, WebhookFailed(c.rows), true, FailedEvent);
      case RefundedHook => AfterTxIsQuiet(c, t, WebhookRefunded(c.rows), false, CompletedEvent);
    }
  }

  lemma GotoIsQuiet(c: Cell, c1: Cell, t: nat, pc: Pc)
    requires t in c.threads && c1.threads == c.threads && c1.split == c.split
    requires !pc.FallbackPayment? && !pc.FallbackRefresh?
    ensures IsQuiet(c, Goto(c1, t, pc), t)
  {
  }

  lemma SaveIsQuiet(c: Cell, pay: PaymentRow, ch: Choice)
    ensures SaveRefs(c, pay, ch).threads == c.threads && SaveRefs(c, pay, ch).split == c.split
  {
    hide Entered;
  }

  lemma GatewayIsQuiet(c: Cell, t: nat, ch: Choice)
    requires t in c.threads && c.threads[t].Gateway?
    ensures var pc := c.threads[t];
            IsQuiet(c, GatewayStep(c, t, pc.flow, pc.pay, pc.copy, pc.capture, ch), t)
  {
    hide Goto, IsQuiet, SaveRefs;
    var saved, taken := SaveRefs(c, c.threads[t].pay, ch), c.(captured := true);
    SaveIsQuiet(c, c.threads[t].pay, ch);
    forall pc: Pc | !pc.FallbackPayment? && !pc.FallbackRefresh?
      ensures IsQuiet(c, Goto(c, t, pc), t) && IsQuiet(c, Goto(saved, t, pc), t) && IsQuiet(c, Goto(taken, t, pc), t)
    {
      GotoIsQuiet(c, c, t, pc);
      GotoIsQuiet(c, saved, t, pc);
      GotoIsQuiet(c, taken, t, pc);
    }
  }

  lemma PromoteIsQuiet(c: Cell, t: nat, flow: Flow, pay: PaymentRow, copy: OrderRow, ch: Choice)
    requires t in c.threads
    ensures IsQuiet(c, PromoteStep(c, t, flow, pay, copy, ch), t)
  {
    hide Entered, PaymentTo;
  }

  lemma BeginIsQuiet(flow: Flow, pay: PaymentRow, copy: OrderRow, ch: Choice)
    ensures var pc := AfterBegin(flow, pay, copy, ch); !pc.FallbackPayment? && !pc.FallbackRefresh?
  {
  }

  predicate IsFallback(pc: Pc) {
    pc.FailingBoth? || pc.FallbackRefresh? || pc.FallbackPayment?
  }

  predicate IsWriter(pc: Pc) {
    pc.Promote? || pc.Gateway? || pc.Complete? || pc.Fail? || pc.FallbackOrder? || pc.Job? || pc.KdsStamped?
  }

  predicate IsSettler(pc: Pc) {
    pc.Complete? || pc.Fail? || pc.FallbackOrder? || pc.KdsStamped?
  }

  lemma SettlersAreQuiet(cfg: Config, c: Cell, t: nat, ch: Choice)
    requires t in c.threads && IsSettler(c.threads[t])
    ensures IsQuiet(c, ActStep(cfg, c, t, ch), t)
  {
    GotoIsQuiet(c, c, t, Done);
    hide IsQuiet, Goto, AfterTx, OrderMoveStep, JobStep, GatewayStep, PromoteStep, AfterBegin, FailBoth,
         FallbackPaymentStep, CompleteWithOrder, FailWithOrder, OrderCanMove, IsKitchenStatus;
    match c.threads[t]
    case Complete(copy, now, notify) =>
      AfterTxIsQuiet(c, t, CompleteWithOrder(c.rows, copy, now), notify, CompletedEvent);
    case Fail(copy, notify) => AfterTxIsQuiet(c, t, FailWithOrder(c.rows, copy), notify, FailedEvent);
    case FallbackOrder(copy) => OrderMoveIsQuiet(c, t, copy, PaymentFailed, 0, ch);
    case KdsStamped(copy, target, now) => OrderMoveIsQuiet(c, t, copy, target, now, ch);
  }

  lemma WritersAreQuiet(cfg: Config, c: Cell, t: nat, ch: Choice)
    requires t in c.threads && IsWriter(c.threads[t])
    ensures IsQuiet(c, ActStep(cfg, c, t, ch), t)
  {
    if IsSettler(c.threads[t]) {
      hide ActStep, IsQuiet;
      SettlersAreQuiet(cfg, c, t, ch);
      return;
    }
    hide IsQuiet, Goto, AfterTx, OrderMoveStep, JobStep, GatewayStep, PromoteStep, AfterBegin, FailBoth,
         FallbackPaymentStep, CompleteWithOrder, FailWithOrder, OrderCanMove, IsKitchenStatus;
    match c.threads[t]
    case Promote(flow, pay, copy) => PromoteIsQuiet(c, t, flow, pay, copy, ch);
    case Gateway(_, _, _, _) => GatewayIsQuiet(c, t, ch);
    case Job(kind, attempt) => JobIsQuiet(c, t, kind, attempt, ch);
  }

  lemma ReadersAreQuiet(cfg: Config, c: Cell, t: nat, ch: Choice)
    requires t in c.threads && !IsWriter(c.threads[t]) && !IsFallback(c.threads[t])
    ensures IsQuiet(c, ActStep(cfg, c, t, ch), t)
  {
    GotoIsQuiet(c, c, t, Done);
    StayingIsQuiet(c, t);
    var c' := ActStep(cfg, c, t, ch);
    hide IsQuiet, Goto, AfterTx, OrderMoveStep, JobStep, GatewayStep, PromoteStep, AfterBegin, FailBoth,
         FallbackPaymentStep, CompleteWithOrder, FailWithOrder, OrderCanMove, IsKitchenStatus;
    match c.threads[t]
    case Begin(flow, pay, copy) =>
      BeginIsQuiet(flow, pay, copy, ch);
      GotoIsQuiet(c, c, t, AfterBegin(flow, pay, copy, ch));
    case Recheck(flow, copy) => GotoIsQuiet(c, c, t, Gateway(flow, c.rows.payment, copy, false));
    case FallbackReadOrder => GotoIsQuiet(c, c, t, FallbackOrder(c.rows.order));
    case Dispatch(event) => GotoIsQuiet(c, c.(fired := c.fired + multiset{event}), t, Done);
    case Kds(copy, target) => GotoIsQuiet(c, c, t, KdsStamped(copy, target, c.clock));
    case Done =>
  }

  lemma StayingIsQuiet(c: Cell, t: nat)
    requires t in c.threads && !IsFallback(c.threads[t])
    ensures IsQuiet(c, c, t)
  {
  }

  lemma OthersAreQuiet(cfg: Config, c: Cell, t: nat, ch: Choice)
    requires t in c.threads && !IsFallback(c.threads[t])
    ensures IsQuiet(c, ActStep(cfg, c, t, ch), t)
  {
    hide ActStep, IsQuiet;
    if IsWriter(c.threads[t]) { WritersAreQuiet(cfg, c, t, ch); } else { ReadersAreQuiet(cfg, c, t, ch); }
  }

  lemma FallbacksMoveOne(cfg: Config, c: Cell, t: nat, ch: Choice)
    requires t in c.threads && IsFallback(c.threads[t])
    ensures MovesOnly(c, ActStep(cfg, c, t, ch), t)
  {
    hide AfterTx, OrderMoveStep, JobStep, GatewayStep, PromoteStep, AfterBegin, FailBoth, PaymentTo, Entered;
  }

  lemma ActMovesOne(cfg: Config, c: Cell, t: nat, ch: Choice)
    requires t in c.threads
    ensures MovesOnly(c, ActStep(cfg, c, t, ch), t)
  {
    hide ActStep;
    if IsFallback(c.threads[t]) { FallbacksMoveOne(cfg, c, t, ch); } else { OthersAreQuiet(cfg, c, t, ch); }
  }

  lemma AbortedBothIsTerminal(r: Rows)
    requires RowOk(r.order) && FailBoth(r).Aborted?
    ensures PaymentIsTerminal(r.payment.status)
  {
    StaleSave(r.order, r.order, PaymentFailed, 0);
    hide RowOk, OrderTo;
  }

  lemma ActFallsNot(cfg: Config, c: Cell, t: nat, ch: Choice)
    requires t in c.threads && NoFallback(c) && RowOk(c.rows.order) && !ch.Abort?
    ensures var c' := ActStep(cfg, c, t, ch);
            !c'.split && t in c'.threads && ThreadFallsNot(c', c'.threads[t])
  {
    if IsFallback(c.threads[t]) {
      if FailBoth(c.rows).Aborted? { AbortedBothIsTerminal(c.rows); }
      HandlersFallNot(cfg, c, t, ch);
    } else {
      OthersAreQuiet(cfg, c, t, ch);
    }
    hide ActStep, FailBoth, RowOk;
  }

  lemma HandlersFallNot(cfg: Config, c: Cell, t: nat, ch: Choice)
    requires t in c.threads && NoFallback(c) && !ch.Abort? && IsFallback(c.threads[t])
    requires FailBoth(c.rows).Aborted? ==> PaymentIsTerminal(c.rows.payment.status)
    ensures var c' := ActStep(cfg, c, t, ch);
            !c'.split && t in c'.threads && ThreadFallsNot(c', c'.threads[t])
  {
    assert ThreadFallsNot(c, c.threads[t]);
    hide AfterTx, OrderMoveStep, JobStep, GatewayStep, PromoteStep, AfterBegin, FailBoth, PaymentTo, Entered,
         FallbackPaymentStep;
  }

  lemma {:induction false} RunKeepsNoFallback(cfg: Config, total: nat, clock: nat, run: seq<Label>)
    requires NoAborts(run)
    ensures NoFallback(Exec(cfg, Initial(total, clock), run))
    decreases |run|
  {
    if run != [] {
      var front, l := run[..|run| - 1], run[|run| - 1];
      assert l in run && forall x :: x in front ==> x in run;
      RunKeepsNoFallback(cfg, total, clock, front);
      var c := Exec(cfg, Initial(total, clock), front);
      RunKeepsInv(cfg, total, clock, front);
      InvRowOk(c);
      StepKeepsNoFallback(cfg, c, l);
      hide Inv, Step, NoFallback, RowOk;
    }
  }

  lemma InvRowOk(c: Cell)
    requires Inv(c)
    ensures RowOk(c.rows.order)
  {
    hide ThreadsOk, EventOk, Timed;
  }

  // On every run in which no transaction is aborted from outside, the two rows tell
  // exactly the same story at every moment.
  lemma StrictWithoutAborts(cfg: Config, total: nat, clock: nat, run: seq<Label>)
    requires NoAborts(run)
    ensures var c := Exec(cfg, Initial(total, clock), run);
            && Agreement(c) && (c.rows.payment.status == Failed <==> c.rows.order.status == PaymentFailed)
  {
    RowsAgree(cfg, total, clock, run);
    RunKeepsNoFallback(cfg, total, clock, run);
    NothingIsLost(cfg, total, clock, run);
    hide Exec, Agreement, WeakAgreement;
  }

  lemma {:induction false} NothingIsLost(cfg: Config, total: nat, clock: nat, run: seq<Label>)
    requires NoAborts(run)
    ensures !Exec(cfg, Initial(total, clock), run).lost
    decreases |run|
  {
    if run != [] {
      var front, l := run[..|run| - 1], run[|run| - 1];
      assert l in run && forall x :: x in front ==> x in run;
      NothingIsLost(cfg, total, clock, front);
      StepLosesByAbort(cfg, Exec(cfg, Initial(total, clock), front), l);
      hide Step;
    }
  }

  lemma StepLosesByAbort(cfg: Config, c: Cell, l: Label)
    ensures Step(cfg, c, l).lost ==> c.lost || (l.Act? && l.choice.Abort?)
    ensures Step(cfg, c, l).captured ==> c.captured || (l.Act? && l.choice.Captured?)
  {
    hide OrderTo, PaymentTo, CompleteWithOrder, FailWithOrder, FailBoth, WebhookCompleted, WebhookFailed,
         WebhookRefunded, SavePaymentDirty, Entered, AfterBegin;
  }

  // Money is only ever taken by an answer of the gateway.
  lemma {:induction false} CapturedByAnswer(cfg: Config, total: nat, clock: nat, run: seq<Label>)
    requires Exec(cfg, Initial(total, clock), run).captured
    ensures exists t :: Act(t, Captured) in run
    decreases |run|
  {
    assert run != [];
    var front, l := run[..|run| - 1], run[|run| - 1];
    StepLosesByAbort(cfg, Exec(cfg, Initial(total, clock), front), l);
    hide Step;
    if Exec(cfg, Initial(total, clock), front).captured {
      CapturedByAnswer(cfg, total, clock, front);
      var t :| Act(t, Captured) in front;
      assert Act(t, Captured) in run;
    } else {
      assert l == Act(l.t, Captured) && l in run;
    }
  }

  // ----- finality -----

  ghost predicate SameIfTerminal(c: Cell, c': Cell) {
    PaymentIsTerminal(c.rows.payment.status) ==> c'.rows.payment.status == c.rows.payment.status
  }

  lemma GatewayKeepsTerminal(c: Cell, t: nat, ch: Choice)
    requires t in c.threads && c.threads[t].Gateway?
    ensures var pc := c.threads[t];
            SameIfTerminal(c, GatewayStep(c, t, pc.flow, pc.pay, pc.copy, pc.capture, ch))
  {
    var Gateway(flow, pay, copy, capture) := c.threads[t];
    assert SameIfTerminal(c, SaveRefs(c, pay, ch));
    hide SaveRefs;
  }

  lemma TxKeepsTerminal(cfg: Config, c: Cell, t: nat, ch: Choice)
    requires t in c.threads
    requires var pc := c.threads[t]; pc.Complete? || pc.Fail? || pc.FailingBoth?
    ensures SameIfTerminal(c, ActStep(cfg, c, t, ch))
  {
    hide OrderTo;
  }

  lemma JobKeepsTerminal(c: Cell, t: nat, ch: Choice)
    requires t in c.threads && c.threads[t].Job?
    ensures var pc := c.threads[t]; SameIfTerminal(c, JobStep(c, t, pc.kind, pc.attempt, ch))
  {
    hide OrderTo;
  }

  lemma StepKeepsTerminal(cfg: Config, c: Cell, l: Label)
    ensures SameIfTerminal(c, Step(cfg, c, l))
  {
    if l.Act? && l.t in c.threads {
      var pc := c.threads[l.t];
      if pc.Gateway? {
        GatewayKeepsTerminal(c, l.t, l.choice);
        hide GatewayStep;
      } else if pc.Job? {
        JobKeepsTerminal(c, l.t, l.choice);
        hide JobStep;
      } else if pc.Complete? || pc.Fail? || pc.FailingBoth? {
        TxKeepsTerminal(cfg, c, l.t, l.choice);
        hide ActStep;
      } else {
        OtherKeepsTerminal(cfg, c, l.t, l.choice);
        hide ActStep;
      }
    } else {
      hide ActStep;
    }
  }

  // Payments written alone, order moves, and steps that only read.
  lemma OtherKeepsTerminal(cfg: Config, c: Cell, t: nat, ch: Choice)
    requires t in c.threads
    requires var pc := c.threads[t]; !pc.Gateway? && !pc.Job? && !pc.Complete? && !pc.Fail? && !pc.FailingBoth?
    ensures SameIfTerminal(c, ActStep(cfg, c, t, ch))
  {
    hide GatewayStep, JobStep, OrderTo, AfterTx, FailBoth, Entered, AfterBegin;
    if c.threads[t].Promote? {
      var pc := c.threads[t];
      PromoteKeepsTerminal(c, t, pc.flow, pc.pay, pc.copy, ch);
      hide PromoteStep;
    } else if c.threads[t].FallbackPayment? {
      FallbackKeepsTerminal(cfg, c, t, ch);
      hide FallbackPaymentStep;
    } else {
      hide PromoteStep, FallbackPaymentStep;
    }
  }

  lemma PromoteKeepsTerminal(c: Cell, t: nat, flow: Flow, pay: PaymentRow, copy: OrderRow, ch: Choice)
    ensures SameIfTerminal(c, PromoteStep(c, t, flow, pay, copy, ch))
  {
    hide Entered;
  }

  lemma FallbackKeepsTerminal(cfg: Config, c: Cell, t: nat, ch: Choice)
    ensures SameIfTerminal(c, FallbackPaymentStep(cfg, c, t, ch))
  {
    hide Entered;
  }

  // Completed and Failed are final, whatever fails and however threads interleave.
  lemma {:induction false} SettledForGood(cfg: Config, c: Cell, run: seq<Label>)
    requires PaymentIsTerminal(c.rows.payment.status)
    ensures Exec(cfg, c, run).rows.payment.status == c.rows.payment.status
    decreases |run|
  {
    if run != [] {
      SettledForGood(cfg, c, run[..|run| - 1]);
      StepKeepsTerminal(cfg, Exec(cfg, c, run[..|run| - 1]), run[|run| - 1]);
    }
  }

  // ----- events -----

  // PaymentCompleted and PaymentFailed are each dispatched at most once, never both,
  // and only for a payment that did end that way.
  lemma EventsAtMostOnce(cfg: Config, total: nat, clock: nat, run: seq<Label>)
    ensures var c := Exec(cfg, Initial(total, clock), run);
            && |c.fired| <= 1
            && (forall e :: e in c.fired ==> c.rows.payment.status == FinalStatus(e))
  {
    RunKeepsInv(cfg, total, clock, run);
    InvEvents(Exec(cfg, Initial(total, clock), run));
    hide Exec, Inv;
  }

  lemma InvEvents(c: Cell)
    requires Inv(c)
    ensures |c.fired| <= 1
    ensures forall e :: e in c.fired ==> c.rows.payment.status == FinalStatus(e)
  {
    var n, m := c.fired[CompletedEvent], c.fired[FailedEvent];
    assert n > 0 ==> Earned(c, CompletedEvent);
    assert m > 0 ==> Earned(c, FailedEvent);
    hide Agree, Timed, ThreadsOk;
    forall e | e in c.fired ensures c.rows.payment.status == FinalStatus(e) {
      assert e == CompletedEvent || e == FailedEvent;
    }
    assert c.fired == multiset{}[CompletedEvent := n][FailedEvent := m];
  }

  // ----- timestamps -----

  // The set timestamps are exactly those of the statuses the order went through, and
  // they are ordered along the kitchen line; `cancelled_at` follows `paid_at`.
  lemma TimestampsFollowPath(cfg: Config, total: nat, clock: nat, run: seq<Label>)
    ensures var c := Exec(cfg, Initial(total, clock), run); var at := c.rows.order.at;
            && IsPath(c.path) && c.path[0] == PendingPayment && c.path[|c.path| - 1] == c.rows.order.status
            && (forall s :: s in at <==> s in c.path && s !in {PendingPayment, PaymentFailed, Refunded})
            && NotLater(at, Paid, Accepted) && NotLater(at, Accepted, InProgress)
            && NotLater(at, InProgress, Ready) && NotLater(at, Ready, OrderStatus.Completed)
            && NotLater(at, Paid, Cancelled)
    ensures IsPaidFamily(Exec(cfg, Initial(total, clock), run).rows.order.status) ==>
              Paid in Exec(cfg, Initial(total, clock), run).rows.order.at
  {
    RunKeepsInv(cfg, total, clock, run);
    var c := Exec(cfg, Initial(total, clock), run);
    InvStamps(c);
    hide Exec, Inv, Timed, IsPath, NotLater, IsPaidFamily;
  }

  lemma InvStamps(c: Cell)
    requires Inv(c)
    ensures Timed(c.rows.order, c.path, c.clock)
    ensures IsPath(c.path) && c.path[0] == PendingPayment && c.path[|c.path| - 1] == c.rows.order.status
    ensures forall s :: s in c.rows.order.at <==> s in c.path && s !in {PendingPayment, PaymentFailed, Refunded}
    ensures var at := c.rows.order.at;
            && NotLater(at, Paid, Accepted) && NotLater(at, Accepted, InProgress)
            && NotLater(at, InProgress, Ready) && NotLater(at, Ready, OrderStatus.Completed)
            && NotLater(at, Paid, Cancelled)
            && (IsPaidFamily(c.rows.order.status) ==> Paid in at)
  {
    hide ThreadsOk, EventOk;
    forall s { StampedStatuses(s); }
    hide HasStamp;
  }

  // Whenever the later one is set, the earlier one is set and not after it.
  ghost predicate NotLater(at: map<OrderStatus, nat>, earlier: OrderStatus, later: OrderStatus) {
    earlier in at && later in at ==> at[earlier] <= at[later]
  }

  // A later status on the kitchen line is never entered without the one before it.
  lemma KitchenLineUnbroken(p: seq<OrderStatus>, i: nat)
    requires IsPath(p) && p[0] == PendingPayment && i < |p|
    ensures p[i] in {Paid, PaymentFailed} ==> i > 0 && p[i - 1] == PendingPayment
    ensures p[i] == Accepted ==> i > 0 && p[i - 1] == Paid
    ensures p[i] == InProgress ==> i > 0 && p[i - 1] == Accepted
    ensures p[i] == Ready ==> i > 0 && p[i - 1] == InProgress
    ensures p[i] == OrderStatus.Completed ==> i > 0 && p[i - 1] == Ready
    ensures p[i] == Refunded ==> i > 0 && p[i - 1] == Cancelled
  {
    if i > 0 { assert OrderCanMove(p[i - 1], p[i]); }
  }

  // ----- runs showing what does not hold -----

  const GO := Go(0)

  // The fallback of a failed PayPay initiation cannot write the payment, yet marks the
  // order: PaymentFailed with a payment still Pending.
  lemma DisagreeingRun(cfg: Config) returns (run: seq<Label>)
    requires cfg.fallbackWriteMayFail
    ensures var c := Exec(cfg, Initial(0, 0), run);
            && c.rows.order.status == PaymentFailed && c.rows.payment.status == Pending
            && !Agreement(c)
  {
    var c0, c := Initial(0, 0), Initial(0, 0);
    var o := c0.rows.order;
    run := [];
    assert Exec(cfg, c0, run) == c;
    hide Exec;
    run, c := Then(cfg, c0, run, c, StartFlow(0, InitiatePayPay));
    run, c := Then(cfg, c0, run, c, Act(0, GO));
    run, c := Then(cfg, c0, run, c, Act(0, GatewayError));
    assert c == c0.(threads := map[0 := FailingBoth]);
    run, c := Then(cfg, c0, run, c, Act(0, Abort));
    assert c == c0.(threads := map[0 := FallbackRefresh]);
    run, c := Then(cfg, c0, run, c, Act(0, GO));
    assert c == c0.(threads := map[0 := FallbackPayment]);
    run, c := Then(cfg, c0, run, c, Act(0, Abort));
    assert c == c0.(threads := map[0 := FallbackReadOrder], lost := true);
    run, c := Then(cfg, c0, run, c, Act(0, GO));
    assert c == c0.(threads := map[0 := FallbackOrder(o)], lost := true);
    run, c := Then(cfg, c0, run, c, Act(0, GO));
  }
}
