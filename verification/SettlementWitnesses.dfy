/**
 Concrete runs for what the settlement protocol does not guarantee. No write fails in
 any of them: the interleaving alone does it.
 */
module SettlementWitnesses {
  import opened Lifecycle
  import opened SettlementRows
  import opened SettlementProtocol
  import opened SettlementTheorems

  const STRICT := Config(false)
  const FRESH: OrderRow := OrderRow(PendingPayment, map[], 0)
  const PAID: OrderRow := OrderRow(Paid, map[Paid := 0], 0)
  const PROCESSING: PaymentRow := PaymentRow(Processing, 0, 0)

  // A callback of the 3DS method step, promoted if need be, asks for authentication.
  lemma AskToAuthenticate(run0: seq<Label>, c0: Cell, t: nat) returns (run: seq<Label>, c: Cell)
    requires Exec(STRICT, Initial(0, 0), run0) == c0 && t !in c0.threads
    requires c0.rows.payment in {PaymentRow(Pending, 0, 0), PROCESSING} && c0.rows.order == FRESH
    ensures Exec(STRICT, Initial(0, 0), run) == c
    ensures c == Goto(c0.(rows := Rows(FRESH, PROCESSING)), t, Gateway(ThreeDsMethod, PROCESSING, FRESH, false))
  {
    hide Exec;
    run, c := Then(STRICT, Initial(0, 0), run0, c0, StartFlow(t, ThreeDsMethod));
    run, c := Then(STRICT, Initial(0, 0), run, c, Act(t, GO));
    if c0.rows.payment.status == Pending {
      assert c == Goto(c0, t, Promote(ThreeDsMethod, c0.rows.payment, FRESH));
      run, c := Promoted(run, c, t);
    }
  }

  lemma Promoted(run0: seq<Label>, c0: Cell, t: nat) returns (run: seq<Label>, c: Cell)
    requires Exec(STRICT, Initial(0, 0), run0) == c0 && t in c0.threads
    requires c0.rows == Rows(FRESH, PaymentRow(Pending, 0, 0))
    requires c0.threads[t] == Promote(ThreeDsMethod, c0.rows.payment, FRESH)
    ensures Exec(STRICT, Initial(0, 0), run) == c
    ensures c == Goto(c0.(rows := Rows(FRESH, PROCESSING)), t, Gateway(ThreeDsMethod, PROCESSING, FRESH, false))
  {
    hide Exec;
    run, c := Then(STRICT, Initial(0, 0), run0, c0, Act(t, GO));
    assert c0.path + [] == c0.path;
    assert c == Goto(c0.(rows := Rows(FRESH, PROCESSING)), t, Recheck(ThreeDsMethod, FRESH));
    run, c := Then(STRICT, Initial(0, 0), run, c, Act(t, GO));
  }

  // Authenticated, its capture call is out.
  lemma AskForCapture(run0: seq<Label>, c0: Cell, t: nat) returns (run: seq<Label>, c: Cell)
    requires Exec(STRICT, Initial(0, 0), run0) == c0 && t !in c0.threads
    requires c0.rows.payment in {PaymentRow(Pending, 0, 0), PROCESSING} && c0.rows.order == FRESH
    ensures Exec(STRICT, Initial(0, 0), run) == c
    ensures c == Goto(c0.(rows := Rows(FRESH, PROCESSING)), t, Gateway(ThreeDsMethod, PROCESSING, FRESH, true))
  {
    hide Exec;
    run, c := AskToAuthenticate(run0, c0, t);
    run, c := Then(STRICT, Initial(0, 0), run, c, Act(t, Authenticated(0)));
    assert c0.path + [] == c0.path;
  }

  // The gateway answers, and the thread is about to complete (fail) the payment.
  lemma Answered(run0: seq<Label>, c0: Cell, t: nat, captured: bool) returns (run: seq<Label>, c: Cell)
    requires Exec(STRICT, Initial(0, 0), run0) == c0 && t in c0.threads && c0.threads[t].Gateway?
    requires var pc := c0.threads[t];
             pc.copy == FRESH && MayCapture(pc.flow, pc.capture)
    ensures Exec(STRICT, Initial(0, 0), run) == c
    ensures captured ==>
              c == Goto(c0.(captured := true), t, Complete(FRESH, c0.clock, c0.threads[t].flow != PayPayConfirm))
    ensures !captured ==> c == Goto(c0, t, Fail(FRESH, c0.threads[t].flow != PayPayConfirm))
  {
    hide Exec;
    run, c := Then(STRICT, Initial(0, 0), run0, c0, Act(t, if captured then Captured else Declined(0)));
  }

  lemma Settled(run0: seq<Label>, c0: Cell, t: nat) returns (run: seq<Label>, c: Cell)
    requires Exec(STRICT, Initial(0, 0), run0) == c0 && t in c0.threads && c0.clock == 0
    requires c0.rows == Rows(FRESH, PROCESSING)
    requires c0.threads[t].Complete? && c0.threads[t].copy == FRESH && c0.threads[t].now == 0
    ensures Exec(STRICT, Initial(0, 0), run) == c && c.clock == 0 && c.fired == c0.fired
    ensures c.rows == Rows(PAID, PROCESSING.(status := PaymentStatus.Completed))
    ensures c.threads == c0.threads[t := if c0.threads[t].notify then Dispatch(CompletedEvent) else Done]
  {
    hide Exec;
    StaleSave(FRESH, FRESH, Paid, 0);
    hide OrderTo;
    run, c := Then(STRICT, Initial(0, 0), run0, c0, Act(t, GO));
  }

  // Another thread fails the payment; the capture held by thread `u` is refused.
  lemma CaptureRefused(run0: seq<Label>, c0: Cell, t: nat, u: nat) returns (run: seq<Label>, c: Cell)
    requires Exec(STRICT, Initial(0, 0), run0) == c0 && t in c0.threads && u in c0.threads && t != u
    requires c0.rows == Rows(FRESH, PROCESSING)
    requires c0.threads[t] == Fail(FRESH, true) && c0.threads[u] == Complete(FRESH, 0, true)
    ensures Exec(STRICT, Initial(0, 0), run) == c && c.captured == c0.captured
    ensures c.rows.order.status == PaymentFailed && c.rows.payment.status == Failed
    ensures c.threads == c0.threads[t := Dispatch(FailedEvent)][u := Done]
  {
    hide Exec;
    StaleSave(FRESH, FRESH, PaymentFailed, 0);
    hide OrderTo;
    run, c := Then(STRICT, Initial(0, 0), run0, c0, Act(t, GO));
    assert c.rows == Rows(Enter(FRESH, PaymentFailed, 0), PROCESSING.(status := Failed));
    assert c.threads == c0.threads[t := Dispatch(FailedEvent)] && c.captured == c0.captured;
    run, c := Then(STRICT, Initial(0, 0), run, c, Act(u, GO));
  }

  // The gateway has captured the money, but a parallel 3DS callback fails the payment
  // first and the capture is never recorded.
  lemma CapturedYetFailed() returns (run: seq<Label>)
    ensures var c := Exec(STRICT, Initial(0, 0), run);
            c.captured && c.rows.payment.status == Failed && c.rows.order.status == PaymentFailed
  {
    var c := Initial(0, 0);
    run := [];
    assert Exec(STRICT, c, run) == c;
    hide Exec, Step;
    run, c := AskForCapture(run, c, 0);
    run, c := AskForCapture(run, c, 1);
    run, c := Answered(run, c, 0, true);
    run, c := Answered(run, c, 1, false);
    run, c := CaptureRefused(run, c, 1, 0);
  }

  lemma ExecuteCard() returns (run: seq<Label>, c: Cell)
    ensures Exec(STRICT, Initial(0, 0), run) == c
    ensures c == Initial(0, 0).(rows := Rows(FRESH, PROCESSING),
                                threads := map[0 := Gateway(CardExecute, PROCESSING, FRESH, false)])
  {
    var c0 := Initial(0, 0);
    run, c := [], c0;
    assert Exec(STRICT, c0, run) == c;
    hide Exec;
    run, c := Then(STRICT, c0, run, c, StartFlow(0, CardExecute));
    run, c := Then(STRICT, c0, run, c, Act(0, GO));
    assert c == c0.(threads := map[0 := Promote(CardExecute, c0.rows.payment, FRESH)]);
    run, c := Then(STRICT, c0, run, c, Act(0, GO));
  }

  // A card payment, from the fresh payment to a Paid order.
  lemma PayByCard() returns (run: seq<Label>, c: Cell)
    ensures Exec(STRICT, Initial(0, 0), run) == c
    ensures c.rows.order == PAID && c.threads == map[0 := Dispatch(CompletedEvent)] && c.clock == 0
  {
    hide Exec, Step;
    run, c := ExecuteCard();
    run, c := Answered(run, c, 0, true);
    run, c := Settled(run, c, 0);
  }

  // A kitchen request, up to its clock reading.
  lemma KitchenReads(run0: seq<Label>, c0: Cell, t: nat, target: OrderStatus) returns (run: seq<Label>, c: Cell)
    requires Exec(STRICT, Initial(0, 0), run0) == c0 && t !in c0.threads
    requires c0.rows.order == PAID && target in {Accepted, Cancelled}
    ensures Exec(STRICT, Initial(0, 0), run) == c
    ensures c == Goto(c0, t, KdsStamped(PAID, target, c0.clock))
  {
    hide Exec;
    run, c := Then(STRICT, Initial(0, 0), run0, c0, StartKds(t, target));
    run, c := Then(STRICT, Initial(0, 0), run, c, Act(t, GO));
  }

  lemma Waited(run0: seq<Label>, c0: Cell, seconds: nat) returns (run: seq<Label>, c: Cell)
    requires Exec(STRICT, Initial(0, 0), run0) == c0
    ensures Exec(STRICT, Initial(0, 0), run) == c && c == c0.(clock := c0.clock + seconds)
  {
    run, c := Then(STRICT, Initial(0, 0), run0, c0, Tick(seconds));
  }

  lemma KitchenCommits(run0: seq<Label>, c0: Cell, t: nat) returns (run: seq<Label>, c: Cell)
    requires Exec(STRICT, Initial(0, 0), run0) == c0 && t in c0.threads && c0.threads[t].KdsStamped?
    requires RowOk(c0.rows.order) && Precedes(c0.threads[t].copy, c0.rows.order)
    requires OrderCanMove(c0.rows.order.status, c0.threads[t].target)
    ensures Exec(STRICT, Initial(0, 0), run) == c
    ensures c.rows.order == Enter(c0.rows.order, c0.threads[t].target, c0.threads[t].now)
    ensures c.threads == c0.threads[t := Done]
  {
    hide Exec;
    var KdsStamped(copy, target, now) := c0.threads[t];
    StaleSave(c0.rows.order, copy, target, now);
    hide OrderTo;
    run, c := Then(STRICT, Initial(0, 0), run0, c0, Act(t, GO));
  }

  // Cancelling reads the clock, then the kitchen accepts later, then the cancellation
  // commits: `cancelled_at` is before `accepted_at`.
  lemma CancelledBeforeAccepted() returns (run: seq<Label>)
    ensures var at := Exec(STRICT, Initial(0, 0), run).rows.order.at;
            Accepted in at && Cancelled in at && at[Cancelled] < at[Accepted]
  {
    var c: Cell;
    run, c := PayByCard();
    run, c := KitchenReads(run, c, 1, Cancelled);
    run, c := Waited(run, c, 7);
    run, c := KitchenReads(run, c, 2, Accepted);
    EnterOk(PAID, Accepted, 7);
    assert RowOk(PAID) && Precedes(PAID, PAID);
    hide Exec, Step, RowOk, Precedes;
    run, c := KitchenCommits(run, c, 2);
    run, c := KitchenCommits(run, c, 1);
  }

  lemma InitiateByPayPay() returns (run: seq<Label>, c: Cell)
    ensures Exec(STRICT, Initial(0, 0), run) == c
    ensures c == Initial(0, 0).(rows := Rows(FRESH, PROCESSING), threads := map[0 := Done])
  {
    var c0 := Initial(0, 0);
    run, c := [], c0;
    assert Exec(STRICT, c0, run) == c;
    hide Exec;
    run, c := Then(STRICT, c0, run, c, StartFlow(0, InitiatePayPay));
    run, c := Then(STRICT, c0, run, c, Act(0, GO));
    run, c := Then(STRICT, c0, run, c, Act(0, GO));
    assert c == c0.(threads := map[0 := Promote(InitiatePayPay, c0.rows.payment, FRESH)]);
    run, c := Then(STRICT, c0, run, c, Act(0, GO));
  }

  lemma ConfirmPayPay(run0: seq<Label>, c0: Cell, t: nat) returns (run: seq<Label>, c: Cell)
    requires Exec(STRICT, Initial(0, 0), run0) == c0 && t !in c0.threads
    requires c0.rows == Rows(FRESH, PROCESSING)
    ensures Exec(STRICT, Initial(0, 0), run) == c
    ensures c == Goto(c0, t, Gateway(PayPayConfirm, PROCESSING, FRESH, false))
  {
    hide Exec;
    run, c := Then(STRICT, Initial(0, 0), run0, c0, StartFlow(t, PayPayConfirm));
    run, c := Then(STRICT, Initial(0, 0), run, c, Act(t, GO));
  }

  // A PayPay payment initiated and confirmed on return, with nothing left to do.
  lemma PayByPayPay() returns (run: seq<Label>, c: Cell)
    ensures Exec(STRICT, Initial(0, 0), run) == c
    ensures c.rows == Rows(PAID, PROCESSING.(status := PaymentStatus.Completed))
    ensures c.threads == map[0 := Done, 1 := Done] && c.fired == multiset{} && c.clock == 0
  {
    hide Exec, Step;
    run, c := InitiateByPayPay();
    run, c := ConfirmPayPay(run, c, 1);
    run, c := Answered(run, c, 1, true);
    run, c := Settled(run, c, 1);
  }

  // A completed webhook that finds the payment completed has nothing to announce.
  lemma HookComesLate(run0: seq<Label>, c0: Cell, t: nat) returns (run: seq<Label>, c: Cell)
    requires Exec(STRICT, Initial(0, 0), run0) == c0 && t !in c0.threads
    requires c0.rows == Rows(PAID, PROCESSING.(status := PaymentStatus.Completed))
    ensures Exec(STRICT, Initial(0, 0), run) == c
    ensures c.rows == c0.rows.(order := Enter(PAID, Accepted, c0.clock))
    ensures c.threads == c0.threads[t := Done] && c.fired == c0.fired
  {
    hide Exec;
    run, c := Then(STRICT, Initial(0, 0), run0, c0, StartJob(t, CompletedHook));
    assert c == Goto(c0, t, Job(CompletedHook, 1));
    StaleSave(PAID, PAID, Accepted, c0.clock);
    hide OrderTo, Enter;
    run, c := Then(STRICT, Initial(0, 0), run, c, Act(t, GO));
  }

  // When the PayPay confirm wins the race, the webhook finds the payment Completed and
  // PaymentCompleted is never dispatched: every thread has finished.
  lemma SilentCompletion() returns (run: seq<Label>)
    ensures var c := Exec(STRICT, Initial(0, 0), run);
            && c.rows.payment.status == PaymentStatus.Completed && c.rows.order.status == Accepted
            && c.fired == multiset{} && forall t :: t in c.threads ==> c.threads[t] == Done
  {
    hide Exec;
    var c: Cell;
    run, c := PayByPayPay();
    run, c := HookComesLate(run, c, 2);
  }
}
