/**
 When the settlement protocol tells about a completed payment, exactly, and when a
 captured payment is recorded, exactly.
 */
module SettlementEvents {
  import opened Lifecycle
  import opened SettlementRows
  import opened SettlementProtocol
  import opened SettlementSafety
  import opened SettlementTheorems

  // ----- silent completion -----

  // A transaction that commits the completion of a payment and dispatches nothing.
  predicate Silences(c: Cell, l: Label) {
    && l.Act? && l.t in c.threads && !l.choice.Abort?
    && c.threads[l.t].Complete? && !c.threads[l.t].notify
    && c.rows.payment.status == Processing && c.rows.order.status == PendingPayment
  }

  predicate SilencedFrom(cfg: Config, c0: Cell, run: seq<Label>) {
    exists i | 0 <= i < |run| :: Silences(Exec(cfg, c0, run[..i]), run[i])
  }

  lemma SilencedSnoc(cfg: Config, c0: Cell, front: seq<Label>, l: Label)
    ensures SilencedFrom(cfg, c0, front + [l]) <==>
            SilencedFrom(cfg, c0, front) || Silences(Exec(cfg, c0, front), l)
  {
    hide Exec, Silences;
    var run := front + [l];
    assert run[..|front|] == front;
    assert forall i | 0 <= i < |front| :: run[..i] == front[..i] && run[i] == front[i];
    if SilencedFrom(cfg, c0, front) {
      var i :| 0 <= i < |front| && Silences(Exec(cfg, c0, front[..i]), front[i]);
      assert Silences(Exec(cfg, c0, run[..i]), run[i]);
    }
    if Silences(Exec(cfg, c0, front), l) {
      assert Silences(Exec(cfg, c0, run[..|front|]), run[|front|]);
    }
  }

  predicate IsCompleted(c: Cell) {
    c.rows.payment.status == PaymentStatus.Completed
  }

  // A completed payment has been, or is about to be, announced unless it was silenced.
  ghost predicate Told(c: Cell, silent: bool) {
    && (IsCompleted(c) ==> (Earned(c, CompletedEvent) <==> !silent))
    && (silent ==> IsCompleted(c))
  }

  // One thread moved on; it is going to announce the completion exactly if it brought
  // it about and is not one to keep silent.
  ghost predicate Exactly(c: Cell, c': Cell, t: nat, silences: bool) {
    var newly := IsCompleted(c') && !IsCompleted(c);
    && t in c.threads && t in c'.threads && c'.threads == c.threads[t := c'.threads[t]] && c'.fired == c.fired
    && (IsCompleted(c) ==> IsCompleted(c'))
    && (silences ==> newly)
    && (c'.threads[t] == Dispatch(CompletedEvent) <==> newly && !silences)
    && (Announces(c.threads[t]) ==> Announces(c'.threads[t]))
  }

  // Not a PayPay confirm, nor on its way to complete silently.
  predicate Announces(pc: Pc) {
    match pc
    case Begin(flow, _, _) => flow != PayPayConfirm
    case Promote(flow, _, _) => flow != PayPayConfirm
    case Recheck(flow, _) => flow != PayPayConfirm
    case Gateway(flow, _, _, _) => flow != PayPayConfirm
    case Complete(_, _, notify) => notify
    case _ => true
  }

  lemma ExactlyKeepsTold(c: Cell, c': Cell, t: nat, silences: bool, silent: bool)
    requires Told(c, silent) && Exactly(c, c', t, silences) && !c.threads[t].Dispatch?
    requires Earned(c, CompletedEvent) ==> IsCompleted(c)
    ensures Told(c', silent || silences)
  {
    forall u | u != t ensures Waiting(c, u, CompletedEvent) <==> Waiting(c', u, CompletedEvent) {
    }
    if u :| Waiting(c, u, CompletedEvent) {
      assert Waiting(c', u, CompletedEvent);
    }
    if c'.threads[t] == Dispatch(CompletedEvent) {
      assert Waiting(c', t, CompletedEvent);
    }
    if u :| Waiting(c', u, CompletedEvent) && u != t {
      assert Waiting(c, u, CompletedEvent);
    }
  }

  lemma DispatchKeepsTold(c: Cell, t: nat, silent: bool)
    requires Told(c, silent) && t in c.threads && c.threads[t].Dispatch?
    ensures Told(Goto(c.(fired := c.fired + multiset{c.threads[t].event}), t, Done), silent)
  {
    var e := c.threads[t].event;
    var c' := Goto(c.(fired := c.fired + multiset{e}), t, Done);
    assert Waiting(c, t, e);
    if e != CompletedEvent {
      forall u ensures Waiting(c, u, CompletedEvent) <==> Waiting(c', u, CompletedEvent) {
      }
    }
  }

  // ----- every step is exact -----

  // A save of gateway columns changes neither statuses nor threads.
  lemma SaveRefsIsQuiet(c: Cell, pay: PaymentRow, ch: Choice)
    ensures var c' := SaveRefs(c, pay, ch);
            && c'.threads == c.threads && c'.fired == c.fired
            && c'.rows.payment.status == c.rows.payment.status
  {
    hide Entered;
  }

  lemma GotoIsExact(c: Cell, c1: Cell, t: nat, pc: Pc)
    requires t in c.threads && pc != Dispatch(CompletedEvent) && (Announces(c.threads[t]) ==> Announces(pc))
    requires c1.threads == c.threads && c1.fired == c.fired && (IsCompleted(c1) <==> IsCompleted(c))
    ensures Exactly(c, Goto(c1, t, pc), t, false)
  {
  }

  lemma ReplyIsExact(c: Cell, t: nat, ch: Choice)
    requires t in c.threads && c.threads[t].Gateway?
    ensures var pc := c.threads[t];
            Exactly(c, ThreeDsReply(c, t, pc.flow, pc.pay, pc.copy, pc.capture, ch), t, false)
  {
    hide SaveRefs, Exactly;
    var Gateway(flow, pay, copy, capture) := c.threads[t];
    if ch.MissingId? {
      GotoIsExact(c, c, t, FailingBoth);
    } else if capture {
      GotoIsExact(c, c, t, Fail(copy, true));
    } else {
      SaveRefsIsQuiet(c, pay, ch);
      GotoIsExact(c, SaveRefs(c, pay, ch), t,
                  if ch.Authenticated? then Gateway(flow, pay, copy, true)
                  else if ch.Challenge? && flow == ThreeDsMethod then Done
                  else Fail(copy, true));
    }
  }

  lemma GatewayIsExact(c: Cell, t: nat, ch: Choice)
    requires t in c.threads && c.threads[t].Gateway?
    ensures var pc := c.threads[t];
            Exactly(c, GatewayStep(c, t, pc.flow, pc.pay, pc.copy, pc.capture, ch), t, false)
  {
    hide SaveRefs, Exactly, ThreeDsReply;
    var Gateway(flow, pay, copy, capture) := c.threads[t];
    SaveRefsIsQuiet(c, pay, ch);
    if ch.GatewayError? {
      GotoIsExact(c, c, t, FailingBoth);
    } else if ch.Captured? && MayCapture(flow, capture) {
      GotoIsExact(c, c.(captured := true), t, Complete(copy, c.clock, flow != PayPayConfirm));
    } else {
      match flow
      case PayPayConfirm => GotoIsExact(c, c, t, if ch.StillPending? then Done else Fail(copy, false));
      case CardExecute => GotoIsExact(c, c, t, Fail(copy, true));
      case ThreeDsExecute => GotoIsExact(c, c, t, Done);
      case InitiateCard => GotoIsExact(c, SaveRefs(c, pay, ch), t, Done);
      case InitiatePayPay => GotoIsExact(c, SaveRefs(c, pay, ch), t, Promote(flow, pay, copy));
      case _ => ReplyIsExact(c, t, ch);
    }
  }

  predicate Completes(r: Rows, tx: TxResult) {
    tx.Committed? && tx.rows.payment.status == PaymentStatus.Completed && r.payment.status != PaymentStatus.Completed
  }

  predicate Reopens(r: Rows, tx: TxResult) {
    tx.Committed? && tx.rows.payment.status != PaymentStatus.Completed && r.payment.status == PaymentStatus.Completed
  }

  // `c1` is `c` up to the clock.
  lemma AfterTxIsExact(c: Cell, c1: Cell, t: nat, tx: TxResult, notify: bool, event: Event, silences: bool)
    requires t in c.threads && c1.threads == c.threads && c1.fired == c.fired && c1.rows == c.rows
    requires !Reopens(c.rows, tx)
    requires var tells := tx.Committed? && tx.fires && notify && event == CompletedEvent;
             (silences <==> Completes(c.rows, tx) && !tells) && (tells ==> Completes(c.rows, tx))
    ensures Exactly(c, AfterTx(c1, t, tx, notify, event), t, silences)
  {
    hide Entered;
  }

  // Only the completed webhook completes a payment, and it fires exactly if it does.
  lemma HooksComplete(r: Rows, split: bool, lost: bool, paid: nat, accepted: nat)
    requires Agree(r, split, lost)
    ensures !Reopens(r, WebhookCompleted(r, paid, accepted))
    ensures var tx := WebhookCompleted(r, paid, accepted); tx.Committed? && tx.fires <==> Completes(r, tx)
    ensures !Reopens(r, WebhookFailed(r)) && !Completes(r, WebhookFailed(r))
    ensures !Reopens(r, WebhookRefunded(r)) && !Completes(r, WebhookRefunded(r))
  {
    WebhookCompletedMeaning(r, split, lost, paid, accepted);
    WebhookFailedMeaning(r, split, lost);
    WebhookRefundedMeaning(r, split, lost);
    hide WebhookCompleted, WebhookFailed, WebhookRefunded, Evolves, Enter, RowOk;
  }

  lemma JobIsExact(c: Cell, t: nat, ch: Choice)
    requires t in c.threads && c.threads[t].Job? && Agree(c.rows, c.split, c.lost)
    ensures var pc := c.threads[t]; Exactly(c, JobStep(c, t, pc.kind, pc.attempt, ch), t, false)
  {
    hide WebhookCompleted, WebhookFailed, WebhookRefunded, AfterTx, Exactly, Agree, Completes, Reopens;
    var Job(kind, attempt) := c.threads[t];
    if ch.Abort? {
      GotoIsExact(c, c, t, if attempt < JOB_TRIES then Job(kind, attempt + 1) else Done);
    } else {
      var later := c.clock + if ch.Go? then ch.elapsed else 0;
      HooksComplete(c.rows, c.split, c.lost, c.clock, later);
      match kind
      case CompletedHook =>
        AfterTxIsExact(c, c.(clock := later), t, WebhookCompleted(c.rows, c.clock, later), true, CompletedEvent, false);
      case FailedHook => AfterTxIsExact(c, c, t, WebhookFailed(c.rows), true, FailedEvent, false);
      case RefundedHook => AfterTxIsExact(c, c, t, WebhookRefunded(c.rows), false, CompletedEvent, false);
    }
  }

  lemma CompleteIsExact(cfg: Config, c: Cell, t: nat, ch: Choice)
    requires t in c.threads && c.threads[t].Complete?
    requires Agree(c.rows, c.split, c.lost) && Precedes(c.threads[t].copy, c.rows.order)
    ensures Exactly(c, ActStep(cfg, c, t, ch), t, Silences(c, Act(t, ch)))
  {
    var Complete(copy, now, notify) := c.threads[t];
    CompleteMeaning(c.rows, c.split, c.lost, copy, now);
    hide CompleteWithOrder, AfterTx, Exactly, Agree, Evolves, Enter, Precedes;
    if ch.Abort? {
      GotoIsExact(c, c, t, Done);
    } else {
      AfterTxIsExact(c, c, t, CompleteWithOrder(c.rows, copy, now), notify, CompletedEvent, Silences(c, Act(t, ch)));
    }
  }

  lemma FailIsExact(cfg: Config, c: Cell, t: nat, ch: Choice)
    requires t in c.threads && c.threads[t].Fail?
    requires Agree(c.rows, c.split, c.lost) && Precedes(c.threads[t].copy, c.rows.order)
    ensures Exactly(c, ActStep(cfg, c, t, ch), t, false)
  {
    var Fail(copy, notify) := c.threads[t];
    FailMeaning(c.rows, c.split, c.lost, copy);
    hide FailWithOrder, AfterTx, Exactly, Evolves, Enter, Precedes, RowOk;
    if ch.Abort? {
      GotoIsExact(c, c, t, Done);
    } else {
      AfterTxIsExact(c, c, t, FailWithOrder(c.rows, copy), notify, FailedEvent, false);
    }
  }

  lemma FailBothIsExact(cfg: Config, c: Cell, t: nat, ch: Choice)
    requires t in c.threads && c.threads[t].FailingBoth? && Agree(c.rows, c.split, c.lost)
    ensures Exactly(c, ActStep(cfg, c, t, ch), t, false)
  {
    FailBothMeaning(c.rows, c.split, c.lost);
    hide FailBoth, Exactly, Evolves, Enter, RowOk, Entered;
    if ch.Abort? || FailBoth(c.rows).Aborted? {
      GotoIsExact(c, c, t, FallbackRefresh);
    } else {
      GotoIsExact(c, Commit(c, FailBoth(c.rows).rows), t, Done);
    }
  }

  lemma PromoteIsExact(c: Cell, t: nat, ch: Choice)
    requires t in c.threads && c.threads[t].Promote?
    ensures var pc := c.threads[t]; Exactly(c, PromoteStep(c, t, pc.flow, pc.pay, pc.copy, ch), t, false)
  {
    hide Entered;
  }

  lemma FallbackIsExact(cfg: Config, c: Cell, t: nat, ch: Choice)
    requires t in c.threads && c.threads[t].FallbackPayment?
    ensures Exactly(c, FallbackPaymentStep(cfg, c, t, ch), t, false)
  {
    hide Entered;
  }

  lemma OtherIsExact(cfg: Config, c: Cell, t: nat, ch: Choice)
    requires t in c.threads
    requires var pc := c.threads[t];
             pc.Begin? || pc.Recheck? || pc.FallbackRefresh? || pc.FallbackReadOrder? || pc.FallbackOrder? ||
             pc.Kds? || pc.KdsStamped? || pc.Done?
    ensures Exactly(c, ActStep(cfg, c, t, ch), t, false)
  {
    hide OrderTo, Entered;
  }

  lemma ActIsExact(cfg: Config, c: Cell, t: nat, ch: Choice)
    requires Inv(c) && t in c.threads && !c.threads[t].Dispatch?
    ensures Exactly(c, ActStep(cfg, c, t, ch), t, Silences(c, Act(t, ch)))
  {
    InvAgree(c);
    InvThread(c, t);
    hide Inv, Exactly, Agree, RowOk, Precedes, GatewayStep, JobStep, PromoteStep, FallbackPaymentStep;
    match c.threads[t]
    case Gateway(_, _, _, _) => GatewayIsExact(c, t, ch);
    case Job(_, _) => JobIsExact(c, t, ch);
    case Promote(_, _, _) => PromoteIsExact(c, t, ch);
    case FallbackPayment => FallbackIsExact(cfg, c, t, ch);
    case Complete(_, _, _) => CompleteIsExact(cfg, c, t, ch);
    case Fail(_, _) => FailIsExact(cfg, c, t, ch);
    case FailingBoth => FailBothIsExact(cfg, c, t, ch);
    case _ => OtherIsExact(cfg, c, t, ch);
  }

  // ----- whole runs -----

  lemma StepKeepsTold(cfg: Config, c: Cell, l: Label, silent: bool)
    requires Inv(c) && Told(c, silent)
    ensures Told(Step(cfg, c, l), silent || Silences(c, l))
  {
    InvEarned(c);
    if l.Act? && l.t in c.threads {
      if c.threads[l.t].Dispatch? {
        DispatchKeepsTold(c, l.t, silent);
      } else {
        ActIsExact(cfg, c, l.t, l.choice);
        ExactlyKeepsTold(c, ActStep(cfg, c, l.t, l.choice), l.t, Silences(c, l), silent);
        hide Inv, Told, Exactly, ActStep;
      }
    } else {
      hide Inv, ActStep;
      var c' := Step(cfg, c, l);
      assert forall t, e :: Waiting(c, t, e) <==> Waiting(c', t, e);
      assert Earned(c, CompletedEvent) <==> Earned(c', CompletedEvent);
    }
  }

  lemma InvEarned(c: Cell)
    requires Inv(c)
    ensures Earned(c, CompletedEvent) ==> IsCompleted(c)
  {
  }

  lemma {:induction false} RunIsTold(cfg: Config, total: nat, clock: nat, run: seq<Label>)
    ensures Told(Exec(cfg, Initial(total, clock), run), SilencedFrom(cfg, Initial(total, clock), run))
    decreases |run|
  {
    if run != [] {
      var front, l := run[..|run| - 1], run[|run| - 1];
      assert front + [l] == run;
      RunIsTold(cfg, total, clock, front);
      RunKeepsInv(cfg, total, clock, front);
      SilencedSnoc(cfg, Initial(total, clock), front, l);
      StepKeepsTold(cfg, Exec(cfg, Initial(total, clock), front), l, SilencedFrom(cfg, Initial(total, clock), front));
      hide Told, Step, Inv, SilencedFrom, Silences;
    }
  }

  predicate AllDispatched(c: Cell) {
    forall t | t in c.threads :: !c.threads[t].Dispatch?
  }

  // Once nobody has an event left to dispatch, a Completed payment has been announced
  // exactly once if no step of the run silenced it, and not at all if one did.
  lemma AnnouncedIffNotSilenced(cfg: Config, total: nat, clock: nat, run: seq<Label>)
    requires IsCompleted(Exec(cfg, Initial(total, clock), run))
    requires AllDispatched(Exec(cfg, Initial(total, clock), run))
    ensures var c := Exec(cfg, Initial(total, clock), run);
            && (c.fired == multiset{CompletedEvent} <==> !SilencedFrom(cfg, Initial(total, clock), run))
            && (c.fired == multiset{} <==> SilencedFrom(cfg, Initial(total, clock), run))
  {
    RunIsTold(cfg, total, clock, run);
    EventsAtMostOnce(cfg, total, clock, run);
    hide Exec, Initial, SilencedFrom;
    var c := Exec(cfg, Initial(total, clock), run);
    assert forall t :: !Waiting(c, t, CompletedEvent);
    assert Earned(c, CompletedEvent) <==> CompletedEvent in c.fired;
    FiredMeaning(c.fired);
  }

  lemma FiredMeaning(fired: multiset<Event>)
    requires |fired| <= 1 && forall e :: e in fired ==> e == CompletedEvent
    ensures CompletedEvent in fired <==> fired == multiset{CompletedEvent}
    ensures CompletedEvent !in fired <==> fired == multiset{}
  {
    if CompletedEvent in fired {
      assert fired == multiset{CompletedEvent} + (fired - multiset{CompletedEvent});
      assert |fired - multiset{CompletedEvent}| == 0;
    }
  }

  predicate IsPayPayConfirm(l: Label) {
    l.StartFlow? && l.flow == PayPayConfirm
  }

  ghost predicate AllAnnounce(c: Cell) {
    forall t :: t in c.threads ==> Announces(c.threads[t])
  }

  lemma StepKeepsAnnouncing(cfg: Config, c: Cell, l: Label)
    requires Inv(c) && AllAnnounce(c) && !IsPayPayConfirm(l)
    ensures AllAnnounce(Step(cfg, c, l)) && !Silences(c, l)
  {
    if l.Act? && l.t in c.threads {
      if !c.threads[l.t].Dispatch? {
        ActIsExact(cfg, c, l.t, l.choice);
        hide ActStep, Inv;
      } else {
        hide Inv, GatewayStep, JobStep, PromoteStep, FallbackPaymentStep, OrderMoveStep, AfterTx, OrderTo, Commit;
      }
    } else {
      hide Inv, ActStep;
    }
  }

  lemma {:induction false} RunKeepsAnnouncing(cfg: Config, total: nat, clock: nat, run: seq<Label>)
    requires forall l :: l in run ==> !IsPayPayConfirm(l)
    ensures AllAnnounce(Exec(cfg, Initial(total, clock), run)) && !SilencedFrom(cfg, Initial(total, clock), run)
    decreases |run|
  {
    if run != [] {
      var front, l := run[..|run| - 1], run[|run| - 1];
      assert front + [l] == run;
      RunKeepsAnnouncing(cfg, total, clock, front);
      RunKeepsInv(cfg, total, clock, front);
      SilencedSnoc(cfg, Initial(total, clock), front, l);
      StepKeepsAnnouncing(cfg, Exec(cfg, Initial(total, clock), front), l);
      hide AllAnnounce, Step, Inv, SilencedFrom, Silences;
    }
  }

  // In particular a shop without PayPay confirms never misses the event.
  lemma CompletedIsAnnounced(cfg: Config, total: nat, clock: nat, run: seq<Label>)
    requires forall l :: l in run ==> !IsPayPayConfirm(l)
    requires IsCompleted(Exec(cfg, Initial(total, clock), run))
    requires AllDispatched(Exec(cfg, Initial(total, clock), run))
    ensures Exec(cfg, Initial(total, clock), run).fired == multiset{CompletedEvent}
  {
    RunKeepsAnnouncing(cfg, total, clock, run);
    AnnouncedIffNotSilenced(cfg, total, clock, run);
  }

  // ----- captured payments -----

  // A capture about to be recorded: afterwards the payment is Completed exactly if it was
  // before, or could still be completed together with its order and the database did not
  // fail; and the order is paid under the same condition.
  lemma CaptureIsRecordedIff(cfg: Config, total: nat, clock: nat, run: seq<Label>, t: nat, ch: Choice)
    requires var c := Exec(cfg, Initial(total, clock), run); t in c.threads && c.threads[t].Complete?
    ensures var c := Exec(cfg, Initial(total, clock), run);
            var c' := Step(cfg, c, Act(t, ch));
            var records := c.rows.payment.status == Processing && c.rows.order.status == PendingPayment && !ch.Abort?;
            && (IsCompleted(c') <==> IsCompleted(c) || records)
            && (IsPaidFamily(c'.rows.order.status) <==> IsPaidFamily(c.rows.order.status) || records)
            && (!c.lost ==> (IsPaidFamily(c'.rows.order.status) <==> IsCompleted(c) || records))
  {
    var c := Exec(cfg, Initial(total, clock), run);
    RunKeepsInv(cfg, total, clock, run);
    hide Exec;
    InvAgree(c);
    InvThread(c, t);
    CompleteMeaning(c.rows, c.split, c.lost, c.threads[t].copy, c.threads[t].now);
    hide Inv, CompleteWithOrder, Precedes, RowOk, Evolves;
  }
}
