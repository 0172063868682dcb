/**
 The kitchen's status changes: one at a time from the display, and in a batch by the
 command that completes orders left ready for too long. Both work on order objects loaded
 earlier, so what they find under the lock may have moved on.
 */
module Kitchen {
  import opened Common
  import opened Lifecycle
  import opened SettlementRows
  import opened SettlementModels
  import Protocol = SettlementProtocol

  // The event other services hear.
  datatype StatusChange = StatusChange(previous: OrderStatus, next: OrderStatus)

  // A loaded order is the stored row as it once was.
  ghost predicate IsStaleCopy(order: Order)
    reads order, order.db
  {
    order.Valid() && RowOk(order.db.order) && Precedes(order.loaded, order.db.order)
  }

  // Every kitchen status but Cancelled has one predecessor, so a change to it finds the
  // loaded row still current. A cancellation may be made, and announced, from an older one.
  lemma OnlyCancelledSkips(stored: OrderRow, copy: OrderRow, s: OrderStatus)
    requires Precedes(copy, stored) && OrderCanMove(stored.status, s) && OrderCanMove(copy.status, s)
    ensures s != Cancelled ==> copy == stored
  {
    hide Reaches;
  }

  // What is announced of a change made through `copy`.
  function Announcement(copy: OrderRow, s: OrderStatus): StatusChange {
    StatusChange(copy.status, s)
  }

  ghost predicate MayMove(stored: OrderRow, copy: OrderRow, s: OrderStatus) {
    RowOk(stored) && Precedes(copy, stored) && OrderCanMove(copy.status, s) && OrderCanMove(stored.status, s)
  }

  // The previous status announced is the true one exactly if the copy is current.
  lemma TruthfulIffCurrent(stored: OrderRow, copy: OrderRow, s: OrderStatus)
    requires MayMove(stored, copy, s)
    ensures Announcement(copy, s).previous == stored.status <==> copy == stored
  {
  }

  // It is for every copy, however stale, exactly if the change is no cancellation.
  lemma AlwaysTruthfulIff(s: OrderStatus)
    requires IsKitchenStatus(s)
    ensures (forall stored, copy | MayMove(stored, copy, s) :: Announcement(copy, s).previous == stored.status) <==>
            s != Cancelled
  {
    if s == Cancelled {
      FullSaveLosesTimestamp();
      var copy := OrderRow(Paid, map[Paid := 1], 500);
      var stored := OrderRow(Accepted, map[Paid := 1, Accepted := 2], 500);
      assert MayMove(stored, copy, s) && Announcement(copy, s).previous != stored.status;
    } else {
      forall stored, copy | MayMove(stored, copy, s) ensures Announcement(copy, s).previous == stored.status {
        OnlyCancelledSkips(stored, copy, s);
      }
    }
  }

  class KdsService {
    var announced: seq<StatusChange>

    constructor ()
      ensures announced == []
    {
      announced := [];
    }

    // The change happens when both the loaded and the stored status allow it, touches
    // the stored row by exactly that status and its timestamp, and is announced once,
    // truthfully unless it is a cancellation; otherwise nothing changes.
    method UpdateOrderStatus(order: Order, newStatus: OrderStatus, now: nat) returns (ok: bool)
      requires IsStaleCopy(order)
      modifies this, order, order.db`order
      ensures ok <==>
                && newStatus !in {PendingPayment, Paid, PaymentFailed, Refunded}
                && OrderCanMove(old(order.loaded.status), newStatus) && OrderCanMove(old(order.db.order.status), newStatus)
      ensures order.db.order == if ok then Enter(old(order.db.order), newStatus, now) else old(order.db.order)
      ensures ok ==> var row := old(order.db.order); order.db.order == OrderRow(newStatus, row.at[newStatus := now], row.total)
      ensures RowOk(order.db.order)
      ensures announced ==
              old(announced) + if ok then [Announcement(old(order.loaded), newStatus)] else []
      ensures ok && newStatus != Cancelled ==>
                order.current == order.db.order && announced[|announced| - 1].previous == old(order.db.order.status)
      ensures !ok ==> order.current == old(order.current)
    {
      KitchenStatusMeaning(newStatus);
      var previousStatus := order.current.status;
      if !OrderCanMove(previousStatus, newStatus) {
        return false;
      }
      if !IsKitchenStatus(newStatus) {
        return false;
      }
      ghost var stored, copy := order.db.order, order.loaded;
      StaleSave(stored, copy, newStatus, now);
      EnterMeaning(stored, newStatus, now);
      ok := order.TransitionTo(newStatus, now);
      if !ok {
        return;
      }
      OnlyCancelledSkips(stored, copy, newStatus);
      announced := announced + [StatusChange(previousStatus, newStatus)];
      hide RowOk, Precedes, OrderTo, Enter, OrderCanMove;
    }
  }

  // Two displays hold the same Paid order; one accepts it, the other cancels it and tells
  // the world that a Paid order has been cancelled.
  method StaleCancellation() returns (kds: KdsService)
    ensures kds.announced == [StatusChange(Paid, Accepted), StatusChange(Paid, Cancelled)]
  {
    var row := OrderRow(Paid, map[Paid := 1], 500);
    var db := new Database(row, PaymentRow(PaymentStatus.Completed, 500, 0));
    kds := new KdsService();
    var one := new Order(db);
    var other := new Order(db);
    assert RowOk(row) && Precedes(row, row);
    EnterOk(row, Accepted, 2);
    var accepted := kds.UpdateOrderStatus(one, Accepted, 2);
    assert other.loaded == row && IsStaleCopy(other);
    var cancelled := kds.UpdateOrderStatus(other, Cancelled, 3);
  }

  // Run alone, a display's change is the run of a kitchen thread of the protocol.
  lemma ChangeIsARun(cfg: Protocol.Config, c: Protocol.Cell, t: nat, s: OrderStatus)
    requires t !in c.threads && RowOk(c.rows.order)
    ensures var go := Protocol.Act(t, Protocol.Go(0));
            var c' := Protocol.Exec(cfg, c, [Protocol.StartKds(t, s), go, go]);
            var row := c.rows.order;
            && t in c'.threads && c'.threads[t] == Protocol.Done && c'.rows.payment == c.rows.payment
            && c'.rows.order == (if s !in {PendingPayment, Paid, PaymentFailed, Refunded} && OrderCanMove(row.status, s)
                                 then OrderRow(s, row.at[s := c.clock], row.total) else row)
  {
    var go := Protocol.Act(t, Protocol.Go(0));
    var row := c.rows.order;
    var c1: Protocol.Cell;
    var run: seq<Protocol.Label> := [];
    assert Protocol.Exec(cfg, c, run) == c;
    CopyOfItself(row);
    StaleSave(row, row, s, c.clock);
    EnterMeaning(row, s, c.clock);
    KitchenStatusMeaning(s);
    KitchenStep(cfg, c, t, s);
    hide Protocol.Exec, Protocol.Step, OrderTo, RowOk, Precedes, OrderCanMove, Enter, HasStamp;
    run, c1 := Protocol.Then(cfg, c, run, c, Protocol.StartKds(t, s));
    run, c1 := Protocol.Then(cfg, c, run, c1, go);
    run, c1 := Protocol.Then(cfg, c, run, c1, go);
    assert run == [Protocol.StartKds(t, s), go, go];
  }

  // The check on the copy, the clock reading, and the transaction.
  lemma KitchenStep(cfg: Protocol.Config, c: Protocol.Cell, t: nat, s: OrderStatus)
    requires t !in c.threads
    ensures var go := Protocol.Act(t, Protocol.Go(0));
            var row := c.rows.order;
            var c' := Protocol.Step(cfg, Protocol.Step(cfg, Protocol.Step(cfg, c, Protocol.StartKds(t, s)), go), go);
            var moved := OrderTo(row, row, s, c.clock);
            && t in c'.threads && c'.threads[t] == Protocol.Done && c'.rows.payment == c.rows.payment
            && c'.rows.order == (if IsKitchenStatus(s) && OrderCanMove(row.status, s) && moved.Some? then moved.value else row)
  {
    hide Protocol.JobStep, Protocol.GatewayStep, Protocol.PromoteStep, Protocol.FallbackPaymentStep,
         Protocol.AfterTx, Protocol.AfterBegin, OrderTo, OrderCanMove, Protocol.Entered;
    var go := Protocol.Act(t, Protocol.Go(0));
    var row := c.rows.order;
    var c1 := Protocol.Step(cfg, c, Protocol.StartKds(t, s));
    assert c1 == Protocol.Goto(c, t, Protocol.Kds(row, s));
    var c2 := Protocol.Step(cfg, c1, go);
    assert c2 == Protocol.Goto(c, t, if OrderCanMove(row.status, s) && IsKitchenStatus(s)
                                     then Protocol.KdsStamped(row, s, c.clock) else Protocol.Done);
  }

  // ----- the batch -----

  ghost predicate AreSeparate(orders: seq<Order>) {
    forall i, j | 0 <= i < j < |orders| :: orders[i] != orders[j] && orders[i].db != orders[j].db
  }

  function Databases(orders: seq<Order>): (dbs: set<Database>)
    ensures forall i | 0 <= i < |orders| :: orders[i].db in dbs
  {
    set i | 0 <= i < |orders| :: orders[i].db
  }

  lemma CompletesIfStillReady(stored: OrderRow, copy: OrderRow, now: nat)
    requires RowOk(stored) && Precedes(copy, stored)
    ensures OrderTo(stored, copy, OrderStatus.Completed, now) ==
            if stored.status == Ready then Some(Enter(stored, OrderStatus.Completed, now)) else None
  {
    StaleSave(stored, copy, OrderStatus.Completed, now);
    hide RowOk, Precedes, OrderTo, Enter;
  }

  // The rows the command asks for: ready since before the threshold.
  predicate IsOverdue(row: OrderRow, threshold: nat) {
    row.status == Ready && Ready in row.at && row.at[Ready] <= threshold
  }

  // The query: a fresh object for every overdue order.
  method SelectOverdue(table: seq<Database>, threshold: nat) returns (orders: seq<Order>)
    requires forall i | 0 <= i < |table| :: RowOk(table[i].order)
    requires forall i, j | 0 <= i < j < |table| :: table[i] != table[j]
    ensures AreSeparate(orders)
    ensures forall o | o in orders ::
              && o.db in table && IsStaleCopy(o)
              && o.loaded.status == Ready && Ready in o.loaded.at && o.loaded.at[Ready] <= threshold
    ensures forall db | db in table && db.order.status == Ready && Ready in db.order.at && db.order.at[Ready] <= threshold ::
              exists o :: o in orders && o.db == db
  {
    orders := [];
    for i := 0 to |table|
      invariant AreSeparate(orders)
      invariant forall o | o in orders ::
                  o.db in table[..i] && IsOverdue(o.loaded, threshold) && IsStaleCopy(o)
      invariant forall db | db in table[..i] && IsOverdue(db.order, threshold) :: exists o :: o in orders && o.db == db
    {
      hide RowOk, Precedes;
      if IsOverdue(table[i].order, threshold) {
        CopyOfItself(table[i].order);
        var order := new Order(table[i]);
        ghost var before := orders;
        orders := orders + [order];
        assert forall o :: o in orders <==> o in before || o == order;
        assert order in orders && order.db == table[i];
        assert forall k | 0 <= k < |before| :: before[k] in before && before[k].db in table[..i];
      }
    }
    assert table[..|table|] == table;
  }

  lemma CopyOfItself(row: OrderRow)
    ensures Precedes(row, row)
  {
  }

  class AutoCompleteReadyOrders {
    var announced: seq<StatusChange>

    // markAsCompleted on one of the loaded orders.
    method CompleteOne(order: Order, now: nat) returns (ok: bool)
      requires IsStaleCopy(order) && order.loaded.status == Ready
      modifies this, order, order.db`order
      ensures ok == (old(order.db.order).status == Ready)
      ensures order.db.order ==
              if ok then Enter(old(order.db.order), OrderStatus.Completed, now) else old(order.db.order)
      ensures ok ==> order.db.order.status == OrderStatus.Completed
      ensures ok ==> order.db.order.at == old(order.db.order).at[OrderStatus.Completed := now]
      ensures announced == old(announced) + if ok then [StatusChange(Ready, OrderStatus.Completed)] else []
    {
      hide RowOk, Precedes, OrderTo, Enter, OrderCanMove;
      var previousStatus := order.current.status;
      CompletesIfStillReady(order.db.order, order.loaded, now);
      EnterMeaning(order.db.order, OrderStatus.Completed, now);
      ok := order.TransitionTo(OrderStatus.Completed, now);
      if ok {
        announced := announced + [StatusChange(previousStatus, OrderStatus.Completed)];
      }
    }

    // `orders` were loaded as Ready; some may have moved on since. The command completes
    // them up to the first that has, stops there with that order's exception, and leaves
    // that one and all later ones as they are.
    method Handle(orders: seq<Order>, nows: seq<nat>) returns (completed: nat, ok: bool)
      requires |nows| == |orders| && AreSeparate(orders)
      requires forall i | 0 <= i < |orders| :: IsStaleCopy(orders[i]) && orders[i].loaded.status == Ready
      modifies this, orders, Databases(orders)
      ensures completed <= |orders| && ok == (completed == |orders|)
      ensures forall i | 0 <= i < completed ::
                old(orders[i].db.order).status == Ready &&
                orders[i].db.order == Enter(old(orders[i].db.order), OrderStatus.Completed, nows[i])
      ensures forall i | completed <= i < |orders| :: orders[i].db.order == old(orders[i].db.order)
      ensures !ok ==> old(orders[completed].db.order).status != Ready
      ensures forall i | 0 <= i < |orders| :: orders[i].db.payment == old(orders[i].db.payment)
      ensures announced ==
              old(announced) + seq(completed, i => StatusChange(Ready, OrderStatus.Completed))
    {
      hide RowOk, Precedes, OrderTo, Enter, OrderCanMove;
      completed := 0;
      while completed < |orders|
        invariant 0 <= completed <= |orders|
        invariant forall i | 0 <= i < completed ::
                    old(orders[i].db.order).status == Ready &&
                    orders[i].db.order == Enter(old(orders[i].db.order), OrderStatus.Completed, nows[i])
        invariant forall i | completed <= i < |orders| ::
                    orders[i].db.order == old(orders[i].db.order) && IsStaleCopy(orders[i]) &&
                    orders[i].loaded.status == Ready
        invariant forall i | 0 <= i < |orders| :: orders[i].db.payment == old(orders[i].db.payment)
        invariant announced ==
                  old(announced) + seq(completed, i => StatusChange(Ready, OrderStatus.Completed))
      {
        var moved := CompleteOne(orders[completed], nows[completed]);
        if !moved {
          return completed, false;
        }
        completed := completed + 1;
      }
      ok := true;
    }
  }
}
