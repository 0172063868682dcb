/**
 Checkouts side by side: any number of carts being turned into orders by the bounded
 retry over random codes, attempt by attempt, while menus are repriced in between.
 Every attempt is the transaction of `OrderCreation`.

 `Step` is total: a label that does not fit the state changes nothing. A checkout that
 is never scheduled again has crashed between two attempts.
 */
module CheckoutRuns {
  import opened Common
  import opened OrderCreation

  datatype Checkout =
    | Trying(cart: Cart, date: int, attempts: nat)
    | Ordered(cart: Cart, date: int, order: nat, code: Code, menu: Menu)   // as the last attempt found the menu
    | GaveUp(error: CreationError, attempts: nat)

  datatype Shop = Shop(menu: Menu, tables: Tables, checkouts: map<nat, Checkout>)

  datatype Label =
    | Reprice(menu: Menu)
    | BeginCheckout(t: nat, cart: Cart, date: int)
    | Attempt(t: nat, code: Code)

  function Initial(menu: Menu): Shop {
    Shop(menu, Tables(map[], [], [], 1, 1), map[])
  }

  function Step(s: Shop, l: Label): Shop {
    match l
    case Reprice(menu) => s.(menu := menu)
    case BeginCheckout(t, cart, date) =>
      if t in s.checkouts then s else s.(checkouts := s.checkouts[t := Trying(cart, date, 0)])
    case Attempt(t, code) =>
      if t !in s.checkouts || !s.checkouts[t].Trying? then s else AttemptStep(s, t, code)
  }

  // One pass of the loop of createOrderWithRetry.
  function AttemptStep(s: Shop, t: nat, code: Code): Shop
    requires t in s.checkouts && s.checkouts[t].Trying?
  {
    var Trying(cart, date, attempts) := s.checkouts[t];
    match AttemptTx(s.tables, s.menu, cart, date, code)
    case Created(tables) =>
      s.(tables := tables, checkouts := s.checkouts[t := Ordered(cart, date, s.tables.nextOrder, code, s.menu)])
    case Rejected(e) => s.(checkouts := s.checkouts[t := GaveUp(e, attempts + 1)])
    case CodeCollision =>
      s.(checkouts := s.checkouts[t := if attempts + 1 < MAX_ATTEMPTS then Trying(cart, date, attempts + 1)
                                       else GaveUp(NoCodeFound, attempts + 1)])
  }

  function Exec(s: Shop, run: seq<Label>): Shop
    decreases |run|
  {
    if run == [] then s else Step(Exec(s, run[..|run| - 1]), run[|run| - 1])
  }

  // ----- what every run keeps -----

  // One option row: the option chosen, under the name and the price it had.
  ghost predicate HoldsOption(menu: Menu, item: nat, row: OptionRow, id: nat) {
    && id in menu.options
    && row.orderItem == item && row.option == id
    && row.name == menu.options[id].name && row.price == menu.options[id].price
  }

  ghost predicate HoldsLine(menu: Menu, t: Tables, row: ItemRow, line: CartItem) {
    var options := OptionsOf(t.options, row.id);
    && line.menuItem in menu.items && menu.items[line.menuItem].availableNow
    && row.menuItem == line.menuItem && row.quantity == line.quantity
    && row.name == menu.items[line.menuItem].name && row.price == menu.items[line.menuItem].price
    && |options| == |line.options|
    && forall j :: 0 <= j < |options| ==> HoldsOption(menu, row.id, options[j], line.options[j])
  }

  // The order's rows are the lines of the cart, in order, each with its options, under the
  // names and prices of that menu.
  ghost predicate HoldsCart(menu: Menu, t: Tables, order: nat, cart: Cart) {
    var rows := ItemsOf(t.items, order);
    |rows| == |cart.items| && forall k :: 0 <= k < |rows| ==> HoldsLine(menu, t, rows[k], cart.items[k])
  }

  ghost predicate OrderStands(t: Tables, c: Checkout) {
    match c
    case Trying(_, _, attempts) => attempts < MAX_ATTEMPTS
    case GaveUp(error, attempts) => attempts <= MAX_ATTEMPTS && (error == NoCodeFound ==> attempts == MAX_ATTEMPTS)
    case Ordered(cart, date, o, code, menu) =>
      && o in t.orders && HoldsCart(menu, t, o, cart)
      && t.orders[o].tenant == cart.tenant && t.orders[o].date == date && t.orders[o].user == cart.user
      && t.orders[o].code == code && t.orders[o].total == CartTotal(menu, cart.items)
  }

  // Every order has exactly one checkout that made it.
  ghost predicate OneToOne(orders: map<nat, OrderRow>, checkouts: map<nat, Checkout>) {
    && (forall o :: o in orders ==> MadeBySome(checkouts, o))
    && (forall o, t, u ::
          t in checkouts && u in checkouts && Made(checkouts[t], o) && Made(checkouts[u], o) ==> t == u)
  }

  ghost predicate MadeBySome(checkouts: map<nat, Checkout>, o: nat) {
    exists t :: t in checkouts && Made(checkouts[t], o)
  }

  predicate Made(c: Checkout, o: nat) {
    c.Ordered? && c.order == o
  }

  ghost predicate TablesStand(t: Tables) {
    TablesOk(t) && CodesUnique(t.orders) && TotalsStand(t)
  }

  ghost predicate Inv(s: Shop) {
    && TablesStand(s.tables)
    && (forall t :: t in s.checkouts ==> OrderStands(s.tables, s.checkouts[t]))
    && OneToOne(s.tables.orders, s.checkouts)
  }

  lemma NewOrderHoldsCart(t: Tables, menu: Menu, cart: Cart, date: int, code: Code)
    requires TablesOk(t) && AttemptTx(t, menu, cart, date, code).Created?
    ensures HoldsCart(menu, AttemptTx(t, menu, cart, date, code).tables, t.nextOrder, cart)
  {
    var t' := AttemptTx(t, menu, cart, date, code).tables;
    var rows := NewItems(menu, cart.items, t.nextOrder, t.nextItem);
    NewItemsAre(menu, cart.items, t.nextOrder, t.nextItem);
    ItemsOfAppend(t.items, rows, t.nextOrder);
    hide ItemsOf, OptionsOf, NewItems, NewOptions;
    forall k | 0 <= k < |rows| ensures HoldsLine(menu, t', rows[k], cart.items[k]) {
      RegroupIsExact(menu, t.options, cart.items, t.nextItem, k);
      var options := OptionsOf(t'.options, rows[k].id);
      forall j | 0 <= j < |options| ensures HoldsOption(menu, rows[k].id, options[j], cart.items[k].options[j]) {
      }
    }
  }

  lemma OldOrderHoldsCart(t: Tables, menu: Menu, cart: Cart, date: int, code: Code, o: nat, was: Menu, mine: Cart)
    requires TablesOk(t) && AttemptTx(t, menu, cart, date, code).Created?
    requires o < t.nextOrder && HoldsCart(was, t, o, mine)
    ensures HoldsCart(was, AttemptTx(t, menu, cart, date, code).tables, o, mine)
  {
    var t' := AttemptTx(t, menu, cart, date, code).tables;
    var more := NewOptions(menu, cart.items, t.nextItem);
    NewItemsAre(menu, cart.items, t.nextOrder, t.nextItem);
    ItemsOfFrame(t.items, NewItems(menu, cart.items, t.nextOrder, t.nextItem), o);
    ItemsOfMembers(t.items, o);
    NewOptionsRange(menu, cart.items, t.nextItem);
    hide ItemsOf, OptionsOf, NewItems, NewOptions;
    var rows := ItemsOf(t.items, o);
    forall k | 0 <= k < |rows| ensures HoldsLine(was, t', rows[k], mine.items[k]) {
      assert HoldsLine(was, t, rows[k], mine.items[k]) && rows[k] in t.items;
      OptionsOfHead(t.options, more, rows[k].id);
    }
  }

  // A checkout that had no order and has none now.
  lemma StaysOneToOne(orders: map<nat, OrderRow>, checkouts: map<nat, Checkout>, t: nat, c: Checkout)
    requires OneToOne(orders, checkouts) && !c.Ordered? && (t in checkouts ==> !checkouts[t].Ordered?)
    ensures OneToOne(orders, checkouts[t := c])
  {
    forall o | o in orders ensures MadeBySome(checkouts[t := c], o) {
      var u :| u in checkouts && Made(checkouts[u], o);
      assert Made(checkouts[t := c][u], o);
    }
  }

  lemma OneMoreOrder(orders: map<nat, OrderRow>, checkouts: map<nat, Checkout>, t: nat, c: Checkout, o: nat, row: OrderRow)
    requires OneToOne(orders, checkouts) && Made(c, o) && (t in checkouts ==> !checkouts[t].Ordered?)
    requires forall u :: u in checkouts ==> !Made(checkouts[u], o)
    ensures OneToOne(orders[o := row], checkouts[t := c])
  {
    var checkouts' := checkouts[t := c];
    assert Made(checkouts'[t], o);
    forall p | p in orders[o := row] ensures MadeBySome(checkouts', p) {
      if p != o {
        var u :| u in checkouts && Made(checkouts[u], p);
        assert Made(checkouts'[u], p);
      }
    }
  }

  lemma CheckoutStands(t: Tables, menu: Menu, cart: Cart, date: int, code: Code, c: Checkout)
    requires TablesOk(t) && OrderStands(t, c) && AttemptTx(t, menu, cart, date, code).Created?
    ensures OrderStands(AttemptTx(t, menu, cart, date, code).tables, c)
    ensures !Made(c, t.nextOrder)
  {
    if c.Ordered? {
      OldOrderHoldsCart(t, menu, cart, date, code, c.order, c.menu, c.cart);
    }
  }

  lemma CreationKeepsInv(s: Shop, t: nat, code: Code)
    requires Inv(s) && t in s.checkouts && s.checkouts[t].Trying?
    requires AttemptTx(s.tables, s.menu, s.checkouts[t].cart, s.checkouts[t].date, code).Created?
    ensures Inv(AttemptStep(s, t, code))
  {
    var s' := AttemptStep(s, t, code);
    var Trying(cart, date, _) := s.checkouts[t];
    var o := s.tables.nextOrder;
    AttemptKeepsTables(s.tables, s.menu, cart, date, code);
    NewOrderHoldsCart(s.tables, s.menu, cart, date, code);
    hide HoldsCart, ItemsAvailable, OptionsExist, CodeTaken, CodesUnique, TotalsStand, OneToOne;
    forall u | u in s.checkouts
      ensures !Made(s.checkouts[u], o) && OrderStands(s'.tables, s.checkouts[u])
    {
      CheckoutStands(s.tables, s.menu, cart, date, code, s.checkouts[u]);
    }
    OneMoreOrder(s.tables.orders, s.checkouts, t, s'.checkouts[t], o, s'.tables.orders[o]);
  }

  lemma StepKeepsInv(s: Shop, l: Label)
    requires Inv(s)
    ensures Inv(Step(s, l))
  {
    hide OneToOne, HoldsCart, TablesStand, AttemptTx;
    match l
    case Reprice(_) =>
    case BeginCheckout(t, cart, date) =>
      if t !in s.checkouts {
        StaysOneToOne(s.tables.orders, s.checkouts, t, Trying(cart, date, 0));
      }
    case Attempt(t, code) =>
      if t in s.checkouts && s.checkouts[t].Trying? {
        AttemptKeepsInv(s, t, code);
      }
  }

  lemma AttemptKeepsInv(s: Shop, t: nat, code: Code)
    requires Inv(s) && t in s.checkouts && s.checkouts[t].Trying?
    ensures Inv(AttemptStep(s, t, code))
  {
    hide OneToOne, HoldsCart, TablesStand;
    var s' := AttemptStep(s, t, code);
    if s'.checkouts[t].Ordered? {
      CreationKeepsInv(s, t, code);
    } else {
      OnlyKnownRefusals(s.tables, s.menu, s.checkouts[t].cart, s.checkouts[t].date, code);
      hide AttemptTx;
      StaysOneToOne(s.tables.orders, s.checkouts, t, s'.checkouts[t]);
    }
  }

  lemma OnlyKnownRefusals(t: Tables, menu: Menu, cart: Cart, date: int, code: Code)
    ensures AttemptTx(t, menu, cart, date, code) != Rejected(NoCodeFound)
  {
  }

  // Whatever attempts, new checkouts and menu changes come in between: codes stay unique
  // and totals stand, every order was made by exactly one checkout and is that
  // checkout's whole cart under the names and prices it was bought at, and nobody tries more
  // than ten codes.
  lemma {:induction false} OneOrderPerCheckout(menu: Menu, run: seq<Label>)
    ensures Inv(Exec(Initial(menu), run))
    decreases |run|
  {
    if run != [] {
      OneOrderPerCheckout(menu, run[..|run| - 1]);
      StepKeepsInv(Exec(Initial(menu), run[..|run| - 1]), run[|run| - 1]);
    }
  }

  // A checkout that has ended stays as it ended: an order is never made twice for it,
  // and one given up never gets an order after all.
  lemma {:induction false} EndedForGood(s: Shop, run: seq<Label>, t: nat)
    requires t in s.checkouts && !s.checkouts[t].Trying?
    ensures t in Exec(s, run).checkouts && Exec(s, run).checkouts[t] == s.checkouts[t]
    decreases |run|
  {
    if run != [] {
      EndedForGood(s, run[..|run| - 1], t);
    }
  }

  // ----- the method alone is one of these runs -----

  function Attempts(t: nat, codes: seq<Code>): seq<Label> {
    seq(|codes|, i requires 0 <= i < |codes| => Attempt(t, codes[i]))
  }

  // The codes tried before the last one were taken: the checkout comes to what its last
  // attempt comes to, and adds nothing before it.
  lemma {:induction false} RetryIsARun(s: Shop, t: nat, codes: seq<Code>)
    requires t in s.checkouts && s.checkouts[t].Trying? && s.checkouts[t].attempts == 0
    requires 1 <= |codes| <= MAX_ATTEMPTS
    requires forall i :: 0 <= i < |codes| - 1 ==>
               AttemptTx(s.tables, s.menu, s.checkouts[t].cart, s.checkouts[t].date, codes[i]) == CodeCollision
    ensures var Trying(cart, date, _) := s.checkouts[t];
            var s' := Exec(s, Attempts(t, codes));
            match AttemptTx(s.tables, s.menu, cart, date, codes[|codes| - 1])
            case Created(tables) =>
              s' == s.(tables := tables, checkouts := s.checkouts[t := Ordered(cart, date, s.tables.nextOrder, codes[|codes| - 1], s.menu)])
            case Rejected(e) => s' == s.(checkouts := s.checkouts[t := GaveUp(e, |codes|)])
            case CodeCollision =>
              s' == s.(checkouts := s.checkouts[t := if |codes| < MAX_ATTEMPTS then Trying(cart, date, |codes|)
                                                     else GaveUp(NoCodeFound, |codes|)])
    decreases |codes|
  {
    var front := codes[..|codes| - 1];
    assert Attempts(t, codes)[..|codes| - 1] == Attempts(t, front);
    hide AttemptTx;
    if front == [] {
      assert Exec(s, Attempts(t, front)) == s;
    } else {
      RetryIsARun(s, t, front);
    }
  }
}
