/**
 When a cancellation is dated before its order was accepted. The kitchen reads the clock
 before it locks the order, so what decides is the status it found when it loaded it.
 */
module SettlementCancellations {
  import opened Lifecycle
  import opened SettlementRows
  import opened SettlementProtocol
  import opened SettlementSafety
  import opened SettlementTheorems
  import opened SettlementEvents

  ghost predicate DatedInOrder(o: OrderRow) {
    Accepted in o.at && Cancelled in o.at ==> o.at[Accepted] <= o.at[Cancelled]
  }

  // Thread `t` is the one that cancels the order, in its next step.
  predicate Cancels(cfg: Config, c: Cell, t: nat, ch: Choice) {
    && t in c.threads && c.threads[t].KdsStamped? && c.threads[t].target == Cancelled
    && c.rows.order.status != Cancelled && Step(cfg, c, Act(t, ch)).rows.order.status == Cancelled
  }

  // The copy a kitchen thread has loaded is the one it works with to the end.
  predicate WorksWith(c: Cell, t: nat, copy: OrderRow) {
    && t in c.threads
    && match c.threads[t]
       case Kds(loaded, target) => loaded == copy && target == Cancelled
       case KdsStamped(loaded, target, _) => loaded == copy && target == Cancelled
       case Done => true
       case _ => false
  }

  // A step touches no thread but its own.
  lemma StepFramesThreads(cfg: Config, c: Cell, l: Label, t: nat)
    requires Inv(c) && t in c.threads && (l.Act? ==> l.t != t)
    ensures t in Step(cfg, c, l).threads && Step(cfg, c, l).threads[t] == c.threads[t]
  {
    if l.Act? && l.t in c.threads {
      if !c.threads[l.t].Dispatch? { ActIsExact(cfg, c, l.t, l.choice); }
      hide Inv, GatewayStep, JobStep, PromoteStep, FallbackPaymentStep, OrderMoveStep, AfterTx, OrderTo, Commit;
    } else {
      hide Inv, ActStep;
    }
  }

  // A kitchen transaction ends its thread, and enters the status if it is permitted.
  lemma OrderMoveEnds(c: Cell, t: nat, copy: OrderRow, target: OrderStatus, now: nat, ch: Choice)
    requires t in c.threads
    ensures OrderMoveStep(c, t, copy, target, now, ch).threads == c.threads[t := Done]
    ensures RowOk(c.rows.order) && Precedes(copy, c.rows.order) ==>
              OrderMoveStep(c, t, copy, target, now, ch).rows.order ==
              if !ch.Abort? && OrderCanMove(c.rows.order.status, target) then Enter(c.rows.order, target, now)
              else c.rows.order
  {
    hide OrderTo, RowOk, Precedes, Entered, Enter, OrderCanMove;
    if RowOk(c.rows.order) && Precedes(copy, c.rows.order) { StaleSave(c.rows.order, copy, target, now); }
  }

  // What Cancels comes to, and the row it leaves.
  lemma CancelsMeaning(cfg: Config, c: Cell, t: nat, ch: Choice)
    requires t in c.threads && c.threads[t].KdsStamped? && c.threads[t].target == Cancelled
    requires RowOk(c.rows.order) && Precedes(c.threads[t].copy, c.rows.order)
    ensures Cancels(cfg, c, t, ch) <==> !ch.Abort? && OrderCanMove(c.rows.order.status, Cancelled)
    ensures Cancels(cfg, c, t, ch) ==>
              Step(cfg, c, Act(t, ch)).rows.order == Enter(c.rows.order, Cancelled, c.threads[t].now)
  {
    var KdsStamped(copy, target, now) := c.threads[t];
    OrderMoveEnds(c, t, copy, target, now, ch);
    ActMoves(cfg, c, t, ch);
    hide OrderMoveStep, RowOk, Precedes, Step;
  }

  lemma ActMoves(cfg: Config, c: Cell, t: nat, ch: Choice)
    requires t in c.threads && c.threads[t].KdsStamped?
    ensures var pc := c.threads[t]; Step(cfg, c, Act(t, ch)) == OrderMoveStep(c, t, pc.copy, pc.target, pc.now, ch)
  {
    hide OrderMoveStep;
  }

  lemma OwnStepKeepsCopy(cfg: Config, c: Cell, t: nat, ch: Choice, copy: OrderRow)
    requires WorksWith(c, t, copy)
    ensures WorksWith(ActStep(cfg, c, t, ch), t, copy)
  {
    match c.threads[t]
    case Kds(_, _) =>
    case KdsStamped(loaded, target, now) =>
      OrderMoveEnds(c, t, loaded, target, now, ch);
      hide OrderMoveStep;
    case Done =>
  }

  lemma {:induction false} RunFromLoad(cfg: Config, c: Cell, more: seq<Label>, t: nat, copy: OrderRow)
    requires Inv(c) && WorksWith(c, t, copy)
    ensures Inv(Exec(cfg, c, more)) && WorksWith(Exec(cfg, c, more), t, copy)
    decreases |more|
  {
    if more != [] {
      var front, l := more[..|more| - 1], more[|more| - 1];
      RunFromLoad(cfg, c, front, t, copy);
      var d := Exec(cfg, c, front);
      StepKeepsInv(cfg, d, l);
      if l.Act? && l.t == t {
        OwnStepKeepsCopy(cfg, d, t, l.choice, copy);
        hide ActStep, Inv, WorksWith;
      } else {
        StepFramesThreads(cfg, d, l, t);
        hide Step, Inv;
      }
    }
  }

  // Past Paid on the kitchen line, an order has been accepted.
  lemma AcceptedOnTheLine(p: seq<OrderStatus>, i: nat)
    requires IsPath(p) && p[0] == PendingPayment && i < |p| && p[i] in {Accepted, InProgress, Ready}
    ensures Accepted in p
    decreases i
  {
    KitchenLineUnbroken(p, i);
    if p[i] != Accepted { AcceptedOnTheLine(p, i - 1); }
  }

  lemma InvAccepted(c: Cell)
    requires Inv(c) && c.rows.order.status in {Accepted, InProgress, Ready}
    ensures Accepted in c.rows.order.at
  {
    AcceptedOnTheLine(c.path, |c.path| - 1);
  }

  // A copy that carries accepted_at dates its cancellation after it.
  lemma AcceptedCopyDatesLate(cfg: Config, c: Cell, t: nat, ch: Choice)
    requires Inv(c) && Cancels(cfg, c, t, ch)
    requires t in c.threads && c.threads[t].KdsStamped? && c.threads[t].target == Cancelled
    requires Accepted in c.threads[t].copy.at
    ensures DatedInOrder(Step(cfg, c, Act(t, ch)).rows.order)
  {
    hide Cancels, Step, Inv;
    InvThread(c, t);
    InvOwnCopy(c);
    CancelsMeaning(cfg, c, t, ch);
    hide RowOk, Reaches, OrderCanMove;
  }

  // A cancellation that has just loaded the order: whatever happens until it commits, it
  // is dated at or after `accepted_at` exactly if it did not find the order Paid.
  lemma CancellationIsDatedInOrderIff(cfg: Config, total: nat, clock: nat, run: seq<Label>, t: nat)
    requires t !in Exec(cfg, Initial(total, clock), run).threads
    ensures var c := Exec(cfg, Initial(total, clock), run);
            var loaded := Step(cfg, c, StartKds(t, Cancelled));
            (forall more, ch | Cancels(cfg, Exec(cfg, loaded, more), t, ch) ::
               DatedInOrder(Step(cfg, Exec(cfg, loaded, more), Act(t, ch)).rows.order)) <==>
            c.rows.order.status != Paid
  {
    var c := Exec(cfg, Initial(total, clock), run);
    var loaded := Step(cfg, c, StartKds(t, Cancelled));
    RunKeepsInv(cfg, total, clock, run);
    StepKeepsInv(cfg, c, StartKds(t, Cancelled));
    assert loaded == Goto(c, t, Kds(c.rows.order, Cancelled));
    hide Exec, Inv, Step, Cancels, DatedInOrder;
    if c.rows.order.status == Paid {
      var more := OvertakenRun(cfg, c, loaded, t);
      assert Cancels(cfg, Exec(cfg, loaded, more), t, GO);
    } else {
      forall more, ch | Cancels(cfg, Exec(cfg, loaded, more), t, ch)
        ensures DatedInOrder(Step(cfg, Exec(cfg, loaded, more), Act(t, ch)).rows.order)
      {
        LoadedPastPaid(cfg, c, loaded, t, more, ch);
      }
    }
  }

  lemma LoadedPastPaid(cfg: Config, c: Cell, loaded: Cell, t: nat, more: seq<Label>, ch: Choice)
    requires Inv(c) && Inv(loaded) && loaded == Goto(c, t, Kds(c.rows.order, Cancelled))
    requires c.rows.order.status != Paid && Cancels(cfg, Exec(cfg, loaded, more), t, ch)
    ensures DatedInOrder(Step(cfg, Exec(cfg, loaded, more), Act(t, ch)).rows.order)
  {
    var d := Exec(cfg, loaded, more);
    hide Inv, Exec, Step;
    RunFromLoad(cfg, loaded, more, t, c.rows.order);
    InvThread(d, t);
    if c.rows.order.status in {Accepted, InProgress, Ready} { InvAccepted(c); }
    AcceptedCopyDatesLate(cfg, d, t, ch);
  }

  lemma {:induction false} SomeFreeThread(ids: set<nat>) returns (u: nat)
    ensures forall i :: i in ids ==> i < u
  {
    u := 0;
    if ids != {} {
      var one :| one in ids;
      var v := SomeFreeThread(ids - {one});
      u := if v > one then v else one + 1;
      assert forall i :: i in ids ==> i == one || i in ids - {one};
    }
  }

  // The cancellation takes its time, another display accepts the order a second later,
  // then the cancellation commits.
  lemma OvertakenRun(cfg: Config, c: Cell, loaded: Cell, t: nat) returns (more: seq<Label>)
    requires Inv(c) && loaded == Goto(c, t, Kds(c.rows.order, Cancelled)) && c.rows.order.status == Paid
    ensures Cancels(cfg, Exec(cfg, loaded, more), t, GO)
    ensures !DatedInOrder(Step(cfg, Exec(cfg, loaded, more), Act(t, GO)).rows.order)
  {
    var row := c.rows.order;
    hide Exec, Inv, RowOk, Precedes, StampsBefore, Enter, Cancels, DatedInOrder, Step, OrderCanMove;
    PaidRowAccepts(c);
    var d: Cell;
    more, d := Overtaken(cfg, loaded, row, t);
    CancelsLast(cfg, d, t, row, c.clock);
  }

  lemma PaidRowAccepts(c: Cell)
    requires Inv(c) && c.rows.order.status == Paid
    ensures var accepted := Enter(c.rows.order, Accepted, c.clock + 1);
            RowOk(c.rows.order) && RowOk(accepted) && Precedes(c.rows.order, accepted)
  {
    InvOwnCopy(c);
    EnterOk(c.rows.order, Accepted, c.clock + 1);
  }

  lemma EmptyRun(cfg: Config, c: Cell)
    ensures Exec(cfg, c, []) == c
  {
  }

  lemma Overtaken(cfg: Config, loaded: Cell, row: OrderRow, t: nat) returns (more: seq<Label>, d: Cell)
    requires t in loaded.threads && loaded.threads[t] == Kds(row, Cancelled)
    requires loaded.rows.order == row && RowOk(row) && row.status == Paid
    ensures Exec(cfg, loaded, more) == d
    ensures t in d.threads && d.threads[t] == KdsStamped(row, Cancelled, loaded.clock)
    ensures d.rows.order == Enter(row, Accepted, loaded.clock + 1)
  {
    hide Exec, RowOk, Enter, Step;
    EmptyRun(cfg, loaded);
    var u := SomeFreeThread(loaded.threads.Keys);
    more, d := Stamped(cfg, loaded, [], loaded, row, t, Cancelled);
    assert d.threads.Keys == loaded.threads.Keys;
    more, d := AcceptedMeanwhile(cfg, loaded, more, d, t, u);
  }

  // A kitchen thread takes its time.
  lemma Stamped(cfg: Config, c0: Cell, run0: seq<Label>, c: Cell, copy: OrderRow, t: nat, target: OrderStatus)
    returns (run: seq<Label>, c': Cell)
    requires Exec(cfg, c0, run0) == c && t in c.threads && c.threads[t] == Kds(copy, target)
    requires OrderCanMove(copy.status, target) && IsKitchenStatus(target)
    ensures Exec(cfg, c0, run) == c' && c' == Goto(c, t, KdsStamped(copy, target, c.clock))
  {
    hide Exec;
    run, c' := Then(cfg, c0, run0, c, Act(t, GO));
  }

  lemma AcceptedMeanwhile(cfg: Config, c0: Cell, run0: seq<Label>, c: Cell, t: nat, u: nat)
    returns (run: seq<Label>, c': Cell)
    requires Exec(cfg, c0, run0) == c && t in c.threads && u !in c.threads
    requires RowOk(c.rows.order) && c.rows.order.status == Paid
    ensures Exec(cfg, c0, run) == c' && t in c'.threads && c'.threads[t] == c.threads[t]
    ensures c'.rows.order == Enter(c.rows.order, Accepted, c.clock + 1)
  {
    var row := c.rows.order;
    hide Exec, RowOk, Enter;
    run, c' := Then(cfg, c0, run0, c, Tick(1));
    run, c' := Then(cfg, c0, run, c', StartKds(u, Accepted));
    assert c' == Goto(c.(clock := c.clock + 1), u, Kds(row, Accepted));
    hide Step;
    run, c' := Stamped(cfg, c0, run, c', row, u, Accepted);
    run, c' := AcceptsAlone(cfg, c0, run, c', u);
  }

  lemma AcceptsAlone(cfg: Config, c0: Cell, run0: seq<Label>, c: Cell, u: nat) returns (run: seq<Label>, c': Cell)
    requires Exec(cfg, c0, run0) == c && RowOk(c.rows.order) && c.rows.order.status == Paid
    requires u in c.threads && c.threads[u] == KdsStamped(c.rows.order, Accepted, c.clock)
    ensures Exec(cfg, c0, run) == c' && c'.threads == c.threads[u := Done]
    ensures c'.rows.order == Enter(c.rows.order, Accepted, c.clock)
  {
    var row := c.rows.order;
    assert Precedes(row, row);
    hide Exec, RowOk, Precedes, OrderMoveStep, Enter;
    OrderMoveEnds(c, u, row, Accepted, c.clock, GO);
    assert Step(cfg, c, Act(u, GO)) == OrderMoveStep(c, u, row, Accepted, c.clock, GO);
    hide Step;
    run, c' := Then(cfg, c0, run0, c, Act(u, GO));
  }

  lemma CancelsLast(cfg: Config, d: Cell, t: nat, copy: OrderRow, now: nat)
    requires t in d.threads && d.threads[t] == KdsStamped(copy, Cancelled, now)
    requires d.rows.order == Enter(copy, Accepted, now + 1) && copy.status == Paid
    requires RowOk(d.rows.order) && Precedes(copy, d.rows.order)
    ensures Cancels(cfg, d, t, GO) && !DatedInOrder(Step(cfg, d, Act(t, GO)).rows.order)
  {
    CancelsMeaning(cfg, d, t, GO);
    hide RowOk, Precedes, Step, Cancels;
  }

  // A cancellation made from a current copy of the order is later than everything that
  // has happened to it: only a stale one can be dated before `accepted_at`.
  lemma FreshCancellationIsLatest(cfg: Config, total: nat, clock: nat, run: seq<Label>, t: nat)
    requires var c := Exec(cfg, Initial(total, clock), run);
             && t in c.threads && c.threads[t].KdsStamped? && c.threads[t].target == Cancelled
             && c.threads[t].copy.status == c.rows.order.status
    ensures var c := Exec(cfg, Initial(total, clock), run);
            forall s :: s in c.rows.order.at ==> c.rows.order.at[s] <= c.threads[t].now
  {
    RunKeepsInv(cfg, total, clock, run);
    hide Exec;
    InvThread(Exec(cfg, Initial(total, clock), run), t);
    hide Inv;
  }
}
