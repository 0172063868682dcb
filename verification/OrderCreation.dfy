/**
 Turning a cart into an order: the bounded retry over random codes, the snapshot of
 names and prices, the single batch insert of all options and its regrouping by order
 item when the total is computed.
 */
module OrderCreation {
  import opened Common

  // ----- menu and cart -----

  datatype MenuItem = MenuItem(name: string, price: int, availableNow: bool)

  datatype MenuOption = MenuOption(name: string, price: int)

  datatype Menu = Menu(items: map<nat, MenuItem>, options: map<nat, MenuOption>)

  datatype CartItem = CartItem(menuItem: nat, quantity: nat, options: seq<nat>)

  datatype Cart = Cart(user: nat, tenant: nat, items: seq<CartItem>)

  // ----- order tables -----

  // One letter of 23 and three digits.
  type Letter = n: nat | n < 23
  type Number = n: nat | n < 1000
  datatype Code = Code(letter: Letter, number: Number)

  datatype OrderRow = OrderRow(tenant: nat, date: int, code: Code, user: nat, total: int)

  datatype ItemRow = ItemRow(id: nat, order: nat, menuItem: nat, name: string, price: int, quantity: nat)

  datatype OptionRow = OptionRow(orderItem: nat, option: nat, name: string, price: int)

  datatype Tables = Tables(
    orders: map<nat, OrderRow>, items: seq<ItemRow>, options: seq<OptionRow>, nextOrder: nat, nextItem: nat)

  datatype CreationError = ItemNotAvailable | InvalidOption | NoCodeFound

  const MAX_ATTEMPTS: nat := 10

  // ----- totals -----

  function PriceSum(rows: seq<OptionRow>): int {
    if rows == [] then 0 else PriceSum(rows[..|rows| - 1]) + rows[|rows| - 1].price
  }

  // The hasMany relation: the rows of one order item, in table order.
  function OptionsOf(rows: seq<OptionRow>, item: nat): seq<OptionRow> {
    if rows == [] then []
    else
      var front, last := OptionsOf(rows[..|rows| - 1], item), rows[|rows| - 1];
      if last.orderItem == item then front + [last] else front
  }

  function ItemsOf(rows: seq<ItemRow>, order: nat): seq<ItemRow> {
    if rows == [] then []
    else
      var front, last := ItemsOf(rows[..|rows| - 1], order), rows[|rows| - 1];
      if last.order == order then front + [last] else front
  }

  function Subtotal(item: ItemRow, options: seq<OptionRow>): int {
    (item.price + PriceSum(OptionsOf(options, item.id))) * item.quantity
  }

  function SubtotalSum(items: seq<ItemRow>, options: seq<OptionRow>): int {
    if items == [] then 0
    else SubtotalSum(items[..|items| - 1], options) + Subtotal(items[|items| - 1], options)
  }

  // calculateTotalAmount: from the stored rows alone.
  function TotalAmount(t: Tables, order: nat): int {
    SubtotalSum(ItemsOf(t.items, order), t.options)
  }

  // CartItem::$subtotal and Cart::$total, where what is gone costs nothing.
  function CartOptionSum(menu: Menu, ids: seq<nat>): int {
    if ids == [] then 0
    else
      var last := ids[|ids| - 1];
      CartOptionSum(menu, ids[..|ids| - 1]) + (if last in menu.options then menu.options[last].price else 0)
  }

  function CartTotal(menu: Menu, items: seq<CartItem>): int {
    if items == [] then 0
    else
      CartTotal(menu, items[..|items| - 1]) + CartSubtotal(menu, items[|items| - 1])
  }

  function CartSubtotal(menu: Menu, item: CartItem): int {
    var price := if item.menuItem in menu.items then menu.items[item.menuItem].price else 0;
    (price + CartOptionSum(menu, item.options)) * item.quantity
  }

  // What a line costs, piece by piece and option by option: a single dish its price, one
  // more of the same the same again, one more option its price for every piece.
  lemma LinePrice(menu: Menu, dish: nat, quantity: nat, options: seq<nat>, id: nat)
    requires dish in menu.items && id in menu.options
    ensures CartSubtotal(menu, CartItem(dish, 1, [])) == menu.items[dish].price
    ensures CartSubtotal(menu, CartItem(dish, 0, options)) == 0
    ensures CartSubtotal(menu, CartItem(dish, quantity + 1, options)) ==
            CartSubtotal(menu, CartItem(dish, quantity, options)) + CartSubtotal(menu, CartItem(dish, 1, options))
    ensures CartSubtotal(menu, CartItem(dish, quantity, options + [id])) ==
            CartSubtotal(menu, CartItem(dish, quantity, options)) + menu.options[id].price * quantity
  {
    assert (options + [id])[..|options|] == options;
    var unit, more := menu.items[dish].price + CartOptionSum(menu, options), menu.options[id].price;
    assert (unit + more) * quantity == unit * quantity + more * quantity;
    assert unit * (quantity + 1) == unit * quantity + unit * 1;
    assert CartOptionSum(menu, []) == 0;
  }

  lemma LinesAddUp(menu: Menu, items: seq<CartItem>, item: CartItem)
    ensures CartTotal(menu, items + [item]) == CartTotal(menu, items) + CartSubtotal(menu, item)
    ensures CartTotal(menu, []) == 0
  {
    assert (items + [item])[..|items|] == items;
  }

  // ----- what one attempt writes -----

  predicate ItemsAvailable(menu: Menu, items: seq<CartItem>) {
    forall i | 0 <= i < |items| :: items[i].menuItem in menu.items && menu.items[items[i].menuItem].availableNow
  }

  predicate OptionsExist(menu: Menu, items: seq<CartItem>) {
    forall i, j | 0 <= i < |items| && 0 <= j < |items[i].options| :: items[i].options[j] in menu.options
  }

  predicate CodeTaken(orders: map<nat, OrderRow>, tenant: nat, date: int, code: Code) {
    exists o | o in orders :: orders[o].tenant == tenant && orders[o].date == date && orders[o].code == code
  }

  function OptionRows(menu: Menu, item: nat, ids: seq<nat>): seq<OptionRow>
    requires forall i | 0 <= i < |ids| :: ids[i] in menu.options
  {
    seq(|ids|, i requires 0 <= i < |ids| => OptionRow(item, ids[i], menu.options[ids[i]].name, menu.options[ids[i]].price))
  }

  function NewItems(menu: Menu, items: seq<CartItem>, order: nat, first: nat): (rows: seq<ItemRow>)
    requires ItemsAvailable(menu, items)
    ensures |rows| == |items|
  {
    if items == [] then []
    else
      var n := |items| - 1;
      var m := menu.items[items[n].menuItem];
      NewItems(menu, items[..n], order, first) +
      [ItemRow(first + n, order, items[n].menuItem, m.name, m.price, items[n].quantity)]
  }

  // All option rows of the cart in one flat list.
  function NewOptions(menu: Menu, items: seq<CartItem>, first: nat): seq<OptionRow>
    requires OptionsExist(menu, items)
  {
    if items == [] then []
    else
      var n := |items| - 1;
      NewOptions(menu, items[..n], first) + OptionRows(menu, first + n, items[n].options)
  }

  datatype Attempt = Created(tables: Tables) | CodeCollision | Rejected(error: CreationError)

  // One attempt's transaction.
  function AttemptTx(t: Tables, menu: Menu, cart: Cart, date: int, code: Code): Attempt {
    if !ItemsAvailable(menu, cart.items) then Rejected(ItemNotAvailable)
    else if !OptionsExist(menu, cart.items) then Rejected(InvalidOption)
    else if CodeTaken(t.orders, cart.tenant, date, code) then CodeCollision
    else
      Created(Tables(
        t.orders[t.nextOrder := OrderRow(cart.tenant, date, code, cart.user, CartTotal(menu, cart.items))],
        t.items + NewItems(menu, cart.items, t.nextOrder, t.nextItem),
        t.options + NewOptions(menu, cart.items, t.nextItem),
        t.nextOrder + 1, t.nextItem + |cart.items|))
  }

  // When an attempt is refused, and why: something not on the menu or not available now,
  // then an option that is gone, then a code some order of this tenant and date has.
  lemma AttemptFails(t: Tables, menu: Menu, cart: Cart, date: int, code: Code)
    ensures var r := AttemptTx(t, menu, cart, date, code);
            var gone := exists i :: i in cart.items && (i.menuItem !in menu.items || !menu.items[i.menuItem].availableNow);
            var without := exists i :: i in cart.items && exists id :: id in i.options && id !in menu.options;
            var taken := exists o :: o in t.orders.Values && o.tenant == cart.tenant && o.date == date && o.code == code;
            && (r == Rejected(ItemNotAvailable) <==> gone)
            && (r == Rejected(InvalidOption) <==> !gone && without)
            && (r == CodeCollision <==> !gone && !without && taken)
            && (r.Created? <==> !gone && !without && !taken)
  {
    assert ItemsAvailable(menu, cart.items) <==>
           forall i :: i in cart.items ==> i.menuItem in menu.items && menu.items[i.menuItem].availableNow;
    if OptionsExist(menu, cart.items) {
      forall i, id | i in cart.items && id in i.options ensures id in menu.options {
      }
    }
    if !OptionsExist(menu, cart.items) {
      var i, j :| 0 <= i < |cart.items| && 0 <= j < |cart.items[i].options| && cart.items[i].options[j] !in menu.options;
      assert cart.items[i] in cart.items && cart.items[i].options[j] in cart.items[i].options;
    }
  }

  // ----- flattening and regrouping -----

  // Ids are handed out in order and every row belongs to something handed out.
  ghost predicate TablesOk(t: Tables) {
    && (forall o :: o in t.orders ==> o < t.nextOrder)
    && (forall i :: 0 <= i < |t.items| ==> t.items[i].id < t.nextItem && t.items[i].order < t.nextOrder)
    && (forall i :: 0 <= i < |t.options| ==> t.options[i].orderItem < t.nextItem)
  }

  lemma {:induction false} OptionsOfAppend(a: seq<OptionRow>, b: seq<OptionRow>, item: nat)
    ensures OptionsOf(a + b, item) == OptionsOf(a, item) + OptionsOf(b, item)
    decreases |b|
  {
    if b == [] {
      assert a + b == a;
    } else {
      assert (a + b)[..|a + b| - 1] == a + b[..|b| - 1];
      OptionsOfAppend(a, b[..|b| - 1], item);
    }
  }

  lemma {:induction false} OptionsOfNone(rows: seq<OptionRow>, item: nat)
    requires forall i :: 0 <= i < |rows| ==> rows[i].orderItem != item
    ensures OptionsOf(rows, item) == []
  {
    if rows != [] { OptionsOfNone(rows[..|rows| - 1], item); }
  }

  lemma {:induction false} OptionsOfAll(rows: seq<OptionRow>, item: nat)
    requires forall i :: 0 <= i < |rows| ==> rows[i].orderItem == item
    ensures OptionsOf(rows, item) == rows
  {
    if rows != [] { OptionsOfAll(rows[..|rows| - 1], item); }
  }

  lemma {:induction false} NewOptionsRange(menu: Menu, items: seq<CartItem>, first: nat)
    requires OptionsExist(menu, items)
    ensures forall r :: r in NewOptions(menu, items, first) ==> first <= r.orderItem < first + |items|
  {
    if items != [] { NewOptionsRange(menu, items[..|items| - 1], first); }
  }

  // Regrouping the flat batch gives every item back exactly its own options, in order,
  // whatever other rows the table already holds.
  lemma {:induction false} RegroupIsExact(menu: Menu, before: seq<OptionRow>, items: seq<CartItem>, first: nat, k: nat)
    requires OptionsExist(menu, items) && k < |items|
    requires forall i :: 0 <= i < |before| ==> before[i].orderItem < first
    ensures OptionsOf(before + NewOptions(menu, items, first), first + k) == OptionRows(menu, first + k, items[k].options)
    decreases |items|
  {
    var n := |items| - 1;
    var front, last := NewOptions(menu, items[..n], first), OptionRows(menu, first + n, items[n].options);
    assert before + NewOptions(menu, items, first) == (before + front) + last;
    hide OptionsOf, NewOptions;
    if k == n {
      RowsBelow(menu, before, items[..n], first);
      OptionsOfTail(before + front, last, first + n);
    } else {
      RegroupIsExact(menu, before, items[..n], first, k);
      OptionsOfHead(before + front, last, first + k);
    }
  }

  lemma RowsBelow(menu: Menu, before: seq<OptionRow>, items: seq<CartItem>, first: nat)
    requires OptionsExist(menu, items)
    requires forall i :: 0 <= i < |before| ==> before[i].orderItem < first
    ensures forall r :: r in before + NewOptions(menu, items, first) ==> r.orderItem < first + |items|
  {
    NewOptionsRange(menu, items, first);
    forall r | r in before ensures r.orderItem < first {
      assert exists i :: 0 <= i < |before| && before[i] == r;
    }
  }

  lemma OptionsOfTail(a: seq<OptionRow>, b: seq<OptionRow>, item: nat)
    requires forall r :: r in a ==> r.orderItem != item
    requires forall r :: r in b ==> r.orderItem == item
    ensures OptionsOf(a + b, item) == b
  {
    OptionsOfAppend(a, b, item);
    OptionsOfNone(a, item);
    OptionsOfAll(b, item);
    assert [] + b == b;
  }

  lemma OptionsOfHead(a: seq<OptionRow>, b: seq<OptionRow>, item: nat)
    requires forall r :: r in b ==> r.orderItem != item
    ensures OptionsOf(a + b, item) == OptionsOf(a, item)
  {
    OptionsOfAppend(a, b, item);
    OptionsOfNone(b, item);
    assert OptionsOf(a, item) + [] == OptionsOf(a, item);
  }

  lemma {:induction false} PriceSumIsCartSum(menu: Menu, item: nat, ids: seq<nat>)
    requires forall i | 0 <= i < |ids| :: ids[i] in menu.options
    ensures PriceSum(OptionRows(menu, item, ids)) == CartOptionSum(menu, ids)
  {
    if ids != [] {
      var n := |ids| - 1;
      assert OptionRows(menu, item, ids)[..n] == OptionRows(menu, item, ids[..n]);
      PriceSumIsCartSum(menu, item, ids[..n]);
    }
  }

  lemma {:induction false} ItemsOfNone(rows: seq<ItemRow>, order: nat)
    requires forall i :: 0 <= i < |rows| ==> rows[i].order != order
    ensures ItemsOf(rows, order) == []
  {
    if rows != [] { ItemsOfNone(rows[..|rows| - 1], order); }
  }

  lemma {:induction false} ItemsOfAppend(a: seq<ItemRow>, b: seq<ItemRow>, order: nat)
    requires forall i :: 0 <= i < |a| ==> a[i].order != order
    requires forall i :: 0 <= i < |b| ==> b[i].order == order
    ensures ItemsOf(a + b, order) == b
    decreases |b|
  {
    if b == [] {
      assert a + b == a;
      ItemsOfNone(a, order);
    } else {
      var front, last := b[..|b| - 1], b[|b| - 1];
      assert (a + b)[..|a + b| - 1] == a + front;
      ItemsOfAppend(a, front, order);
      assert front + [last] == b;
    }
  }

  lemma {:induction false} NewItemsAre(menu: Menu, items: seq<CartItem>, order: nat, first: nat)
    requires ItemsAvailable(menu, items)
    ensures forall k :: 0 <= k < |items| ==>
              NewItems(menu, items, order, first)[k] ==
              ItemRow(first + k, order, items[k].menuItem, menu.items[items[k].menuItem].name,
                      menu.items[items[k].menuItem].price, items[k].quantity)
  {
    if items != [] { NewItemsAre(menu, items[..|items| - 1], order, first); }
  }

  lemma {:induction false} SubtotalsMatch(menu: Menu, options: seq<OptionRow>, rows: seq<ItemRow>, items: seq<CartItem>)
    requires |rows| == |items|
    requires forall k :: 0 <= k < |rows| ==> Subtotal(rows[k], options) == CartSubtotal(menu, items[k])
    ensures SubtotalSum(rows, options) == CartTotal(menu, items)
  {
    if rows != [] {
      SubtotalsMatch(menu, options, rows[..|rows| - 1], items[..|items| - 1]);
    }
  }

  // The stored total is the sum of (locked price + locked option prices) x quantity,
  // which is the cart's own total at those prices.
  lemma SnapshotTotal(t: Tables, menu: Menu, cart: Cart)
    requires TablesOk(t) && ItemsAvailable(menu, cart.items) && OptionsExist(menu, cart.items)
    ensures var items := t.items + NewItems(menu, cart.items, t.nextOrder, t.nextItem);
            var options := t.options + NewOptions(menu, cart.items, t.nextItem);
            SubtotalSum(ItemsOf(items, t.nextOrder), options) == CartTotal(menu, cart.items)
  {
    var newItems := NewItems(menu, cart.items, t.nextOrder, t.nextItem);
    var options := t.options + NewOptions(menu, cart.items, t.nextItem);
    NewItemsAre(menu, cart.items, t.nextOrder, t.nextItem);
    ItemsOfAppend(t.items, newItems, t.nextOrder);
    hide OptionsOf, ItemsOf, PriceSum, CartOptionSum, NewOptions, NewItems, SubtotalSum, CartTotal;
    forall k | 0 <= k < |newItems| ensures Subtotal(newItems[k], options) == CartSubtotal(menu, cart.items[k]) {
      RegroupIsExact(menu, t.options, cart.items, t.nextItem, k);
      PriceSumIsCartSum(menu, t.nextItem + k, cart.items[k].options);
    }
    SubtotalsMatch(menu, options, newItems, cart.items);
  }

  lemma AttemptTablesOk(t: Tables, menu: Menu, cart: Cart, date: int, code: Code)
    requires TablesOk(t) && AttemptTx(t, menu, cart, date, code).Created?
    ensures TablesOk(AttemptTx(t, menu, cart, date, code).tables)
  {
    NewItemsAre(menu, cart.items, t.nextOrder, t.nextItem);
    NewOptionsRange(menu, cart.items, t.nextItem);
    var more := NewOptions(menu, cart.items, t.nextItem);
    assert forall i :: 0 <= i < |more| ==> more[i] in more;
  }

  // ----- the service -----

  class OrderCreationService {
    var menu: Menu
    var orders: map<nat, OrderRow>
    var items: seq<ItemRow>
    var options: seq<OptionRow>
    var nextOrder: nat
    var nextItem: nat

    ghost function State(): Tables
      reads this
    {
      Tables(orders, items, options, nextOrder, nextItem)
    }

    // Inserts the items one by one and all their options in one batch.
    method CreateOrderItems(order: nat, cart: Cart)
      requires ItemsAvailable(menu, cart.items) && OptionsExist(menu, cart.items)
      modifies this`items, this`options, this`nextItem
      ensures items == old(items) + NewItems(menu, cart.items, order, old(nextItem))
      ensures options == old(options) + NewOptions(menu, cart.items, old(nextItem))
      ensures nextItem == old(nextItem) + |cart.items|
    {
      var optionRows: seq<OptionRow> := [];
      for i := 0 to |cart.items|
        invariant nextItem == old(nextItem) + i
        invariant items == old(items) + NewItems(menu, cart.items[..i], order, old(nextItem))
        invariant options == old(options)
        invariant optionRows == NewOptions(menu, cart.items[..i], old(nextItem))
      {
        var cartItem := cart.items[i];
        var menuItem := menu.items[cartItem.menuItem];
        var orderItem := nextItem;
        items := items + [ItemRow(orderItem, order, cartItem.menuItem, menuItem.name, menuItem.price, cartItem.quantity)];
        nextItem := nextItem + 1;
        ghost var rowsBefore := optionRows;
        for j := 0 to |cartItem.options|
          invariant optionRows == rowsBefore + OptionRows(menu, orderItem, cartItem.options[..j])
        {
          var id := cartItem.options[j];
          optionRows := optionRows + [OptionRow(orderItem, id, menu.options[id].name, menu.options[id].price)];
          assert OptionRows(menu, orderItem, cartItem.options[..j + 1]) ==
                 OptionRows(menu, orderItem, cartItem.options[..j]) + [optionRows[|optionRows| - 1]];
        }
        assert cartItem.options[..|cartItem.options|] == cartItem.options;
        assert cart.items[..i + 1][..i] == cart.items[..i];
      }
      assert cart.items[..|cart.items|] == cart.items;
      if optionRows != [] {
        options := options + optionRows;
      }
    }

    // The order row with total 0, its items, then the total.
    method InsertOrder(cart: Cart, date: int, code: Code)
      requires TablesOk(State()) && AttemptTx(State(), menu, cart, date, code).Created?
      modifies this
      ensures State() == AttemptTx(old(State()), old(menu), cart, date, code).tables && menu == old(menu)
    {
      ghost var t := State();
      hide CodeTaken, ItemsOf, SubtotalSum, NewItems, NewOptions, CartTotal, TablesOk;
      var order := nextOrder;
      nextOrder := nextOrder + 1;
      orders := orders[order := OrderRow(cart.tenant, date, code, cart.user, 0)];
      CreateOrderItems(order, cart);
      SnapshotTotal(t, menu, cart);
      orders := orders[order := orders[order].(total := SubtotalSum(ItemsOf(items, order), options))];
    }

    // One attempt: the checks under lock, then the inserts. `codeTaken` reports the
    // violated unique key; a throw leaves nothing behind.
    method TryCreate(cart: Cart, date: int, code: Code) returns (error: Option<CreationError>, codeTaken: bool)
      requires TablesOk(State())
      modifies this
      ensures TablesOk(State()) && menu == old(menu)
      ensures match AttemptTx(old(State()), menu, cart, date, code)
              case Created(t) => error == None && !codeTaken && State() == t
              case CodeCollision => error == None && codeTaken && State() == old(State())
              case Rejected(e) => error == Some(e) && !codeTaken && State() == old(State())
    {
      if !ItemsAvailable(menu, cart.items) {
        return Some(ItemNotAvailable), false;
      }
      if !OptionsExist(menu, cart.items) {
        return Some(InvalidOption), false;
      }
      if CodeTaken(orders, cart.tenant, date, code) {
        return None, true;
      }
      AttemptTablesOk(State(), menu, cart, date, code);
      hide TablesOk, ItemsAvailable, OptionsExist, CodeTaken;
      InsertOrder(cart, date, code);
      return None, false;
    }

    // createOrderWithRetry: `draws` are the random codes, at most ten of them used.
    method CreateOrderWithRetry(cart: Cart, date: int, draws: seq<Code>)
      returns (r: Result<nat, CreationError>, attempts: nat)
      requires |draws| == MAX_ATTEMPTS && TablesOk(State())
      modifies this
      ensures TablesOk(State()) && 1 <= attempts <= MAX_ATTEMPTS
      ensures r.Failure? ==> State() == old(State())
      ensures r.Success? ==>
                && r.value == old(nextOrder)
                && AttemptTx(old(State()), old(menu), cart, date, draws[attempts - 1]) == Created(State())
                && forall i :: 0 <= i < attempts - 1 ==> CodeTaken(old(orders), cart.tenant, date, draws[i])
      ensures r == Failure(NoCodeFound) <==>
                && ItemsAvailable(old(menu), cart.items) && OptionsExist(old(menu), cart.items)
                && forall i :: 0 <= i < MAX_ATTEMPTS ==> CodeTaken(old(orders), cart.tenant, date, draws[i])
    {
      attempts := 0;
      while attempts < MAX_ATTEMPTS
        invariant attempts <= MAX_ATTEMPTS
        invariant State() == old(State()) && menu == old(menu) && TablesOk(State())
        invariant attempts > 0 ==> ItemsAvailable(menu, cart.items) && OptionsExist(menu, cart.items)
        invariant forall i :: 0 <= i < attempts ==> CodeTaken(orders, cart.tenant, date, draws[i])
      {
        attempts := attempts + 1;
        var order := nextOrder;
        var error, codeTaken := TryCreate(cart, date, draws[attempts - 1]);
        if error.Some? {
          return Failure(error.value), attempts;
        }
        if !codeTaken {
          return Success(order), attempts;
        }
      }
      r := Failure(NoCodeFound);
    }
  }

  // ----- all runs -----

  // Attempts by anyone, over carts and dates of their own, against a menu that changes
  // in between.
  datatype Action = ChangeMenu(menu: Menu) | AttemptOrder(cart: Cart, date: int, code: Code)

  datatype World = World(menu: Menu, tables: Tables)

  function Act(w: World, a: Action): World {
    match a
    case ChangeMenu(menu) => w.(menu := menu)
    case AttemptOrder(cart, date, code) =>
      var r := AttemptTx(w.tables, w.menu, cart, date, code);
      if r.Created? then w.(tables := r.tables) else w
  }

  function ActAll(menu: Menu, actions: seq<Action>): World
    decreases |actions|
  {
    if actions == [] then World(menu, Tables(map[], [], [], 1, 1))
    else Act(ActAll(menu, actions[..|actions| - 1]), actions[|actions| - 1])
  }

  ghost predicate CodesUnique(orders: map<nat, OrderRow>) {
    forall a, b | a in orders && b in orders ::
      orders[a].tenant == orders[b].tenant && orders[a].date == orders[b].date && orders[a].code == orders[b].code
      ==> a == b
  }

  // Every order's stored total is what its own rows add up to.
  ghost predicate TotalsStand(t: Tables) {
    forall o :: o in t.orders ==> t.orders[o].total == TotalAmount(t, o)
  }

  lemma {:induction false} ItemsOfFrame(a: seq<ItemRow>, b: seq<ItemRow>, order: nat)
    requires forall i :: 0 <= i < |b| ==> b[i].order != order
    ensures ItemsOf(a + b, order) == ItemsOf(a, order)
    decreases |b|
  {
    if b == [] {
      assert a + b == a;
    } else {
      assert (a + b)[..|a + b| - 1] == a + b[..|b| - 1];
      ItemsOfFrame(a, b[..|b| - 1], order);
    }
  }

  lemma {:induction false} ItemsOfMembers(rows: seq<ItemRow>, order: nat)
    ensures forall r :: r in ItemsOf(rows, order) ==> r in rows
  {
    if rows != [] {
      ItemsOfMembers(rows[..|rows| - 1], order);
    }
  }

  // Later option rows of other items do not disturb the subtotals.
  lemma {:induction false} SubtotalsFrame(items: seq<ItemRow>, a: seq<OptionRow>, b: seq<OptionRow>)
    requires forall i, j :: 0 <= i < |items| && 0 <= j < |b| ==> items[i].id != b[j].orderItem
    ensures SubtotalSum(items, a + b) == SubtotalSum(items, a)
  {
    if items != [] {
      var last := items[|items| - 1];
      SubtotalsFrame(items[..|items| - 1], a, b);
      OptionsOfHead(a, b, last.id);
    }
  }

  lemma OldTotalsStand(t: Tables, menu: Menu, cart: Cart, o: nat)
    requires TablesOk(t) && ItemsAvailable(menu, cart.items) && OptionsExist(menu, cart.items) && o < t.nextOrder
    ensures var items := t.items + NewItems(menu, cart.items, t.nextOrder, t.nextItem);
            var options := t.options + NewOptions(menu, cart.items, t.nextItem);
            SubtotalSum(ItemsOf(items, o), options) == TotalAmount(t, o)
  {
    NewItemsAre(menu, cart.items, t.nextOrder, t.nextItem);
    ItemsOfFrame(t.items, NewItems(menu, cart.items, t.nextOrder, t.nextItem), o);
    ItemsOfMembers(t.items, o);
    NewOptionsRange(menu, cart.items, t.nextItem);
    var mine, more := ItemsOf(t.items, o), NewOptions(menu, cart.items, t.nextItem);
    forall i, j | 0 <= i < |mine| && 0 <= j < |more| ensures mine[i].id != more[j].orderItem {
      assert mine[i] in t.items && more[j] in more;
    }
    SubtotalsFrame(mine, t.options, more);
  }

  lemma AttemptKeepsTables(t: Tables, menu: Menu, cart: Cart, date: int, code: Code)
    requires TablesOk(t) && CodesUnique(t.orders) && TotalsStand(t)
    requires AttemptTx(t, menu, cart, date, code).Created?
    ensures var t' := AttemptTx(t, menu, cart, date, code).tables;
            TablesOk(t') && CodesUnique(t'.orders) && TotalsStand(t')
  {
    var t' := AttemptTx(t, menu, cart, date, code).tables;
    AttemptTablesOk(t, menu, cart, date, code);
    SnapshotTotal(t, menu, cart);
    forall o | o in t'.orders ensures t'.orders[o].total == TotalAmount(t', o) {
      if o != t.nextOrder { OldTotalsStand(t, menu, cart, o); }
    }
  }

  // Over any run: codes are unique per tenant and date, and no later attempt or menu
  // change moves the total of an order.
  lemma {:induction false} OrdersStand(menu: Menu, actions: seq<Action>)
    ensures var t := ActAll(menu, actions).tables; TablesOk(t) && CodesUnique(t.orders) && TotalsStand(t)
    decreases |actions|
  {
    if actions != [] {
      OrdersStand(menu, actions[..|actions| - 1]);
      var w, a := ActAll(menu, actions[..|actions| - 1]), actions[|actions| - 1];
      if a.AttemptOrder? && AttemptTx(w.tables, w.menu, a.cart, a.date, a.code).Created? {
        AttemptKeepsTables(w.tables, w.menu, a.cart, a.date, a.code);
      }
    }
  }

  // An order once created keeps its row and the total of its snapshot, whatever is
  // repriced, removed or ordered afterwards.
  lemma {:induction false} SnapshotIsFrozen(menu: Menu, actions: seq<Action>, more: seq<Action>, o: nat)
    requires o in ActAll(menu, actions).tables.orders
    ensures var t, t' := ActAll(menu, actions).tables, ActAll(menu, actions + more).tables;
            o in t'.orders && t'.orders[o] == t.orders[o] && TotalAmount(t', o) == TotalAmount(t, o)
    decreases |more|
  {
    OrdersStand(menu, actions);
    OrdersStand(menu, actions + more);
    if more == [] {
      assert actions + more == actions;
    } else {
      var rest := more[..|more| - 1];
      assert (actions + more)[..|actions + more| - 1] == actions + rest;
      SnapshotIsFrozen(menu, actions, rest, o);
      OrdersStand(menu, actions + rest);
      hide TotalAmount;
    }
  }

  // ----- the code space -----

  const ALPHA_CHARSET := "ABCDEFGHJKMNPQRSTUVWXYZ"
  const DIGITS := "0123456789"

  // generateRandomOrderCode: a letter and a zero-padded number.
  function CodeString(c: Code): string {
    [ALPHA_CHARSET[c.letter], DIGITS[Place(c.number, 2)], DIGITS[Place(c.number, 1)], DIGITS[Place(c.number, 0)]]
  }

  // The digit of a three-digit number with the given weight.
  function Place(n: Number, i: nat): (d: nat)
    requires i < 3
    ensures d < 10
  {
    if i == 0 then n % 10 else if i == 1 then n / 10 % 10 else n / 100
  }

  // Different codes print differently, so uniqueness of codes is uniqueness of the
  // printed column.
  lemma CodeStringInjective(c: Code, d: Code)
    requires CodeString(c) == CodeString(d)
    ensures c == d
  {
    var s, u := CodeString(c), CodeString(d);
    assert s[0] == u[0] && s[1] == u[1] && s[2] == u[2] && s[3] == u[3];
    CharsetsDistinct();
    DistinctAt(ALPHA_CHARSET, c.letter, d.letter);
    DistinctAt(DIGITS, Place(c.number, 0), Place(d.number, 0));
    DistinctAt(DIGITS, Place(c.number, 1), Place(d.number, 1));
    DistinctAt(DIGITS, Place(c.number, 2), Place(d.number, 2));
    hide CodeString, Increasing;
    NumberFromPlaces(c.number);
    NumberFromPlaces(d.number);
  }

  // A capital letter other than I, L and O, and the number in three digits.
  lemma CodeReadsBack(c: Code)
    ensures var s := CodeString(c);
            && |s| == 4 && 'A' <= s[0] <= 'Z' && s[0] !in {'I', 'L', 'O'}
            && 100 * (s[1] as int - 48) + 10 * (s[2] as int - 48) + (s[3] as int - 48) == c.number
  {
    NumberFromPlaces(c.number);
    DigitValue(Place(c.number, 0));
    DigitValue(Place(c.number, 1));
    DigitValue(Place(c.number, 2));
    LettersAreClear(c.letter);
    hide Place;
  }

  lemma DigitValue(d: nat)
    requires d < 10
    ensures DIGITS[d] as int - 48 == d
  {
  }

  lemma LettersAreClear(i: Letter)
    ensures 'A' <= ALPHA_CHARSET[i] <= 'Z' && ALPHA_CHARSET[i] !in {'I', 'L', 'O'}
  {
  }

  lemma NumberFromPlaces(n: Number)
    ensures n == 100 * Place(n, 2) + 10 * Place(n, 1) + Place(n, 0)
  {
  }

  ghost predicate Increasing(s: string) {
    forall i :: 0 < i < |s| ==> s[i - 1] < s[i]
  }

  lemma CharsetsDistinct()
    ensures Increasing(ALPHA_CHARSET) && Increasing(DIGITS)
  {
  }

  lemma {:induction false} IncreasingAt(s: string, i: nat, j: nat)
    requires Increasing(s) && i < j < |s|
    ensures s[i] < s[j]
  {
    if i < j - 1 { IncreasingAt(s, i, j - 1); }
  }

  lemma DistinctAt(s: string, i: nat, j: nat)
    requires Increasing(s) && i < |s| && j < |s| && s[i] == s[j]
    ensures i == j
  {
    if i < j { IncreasingAt(s, i, j); }
    if j < i { IncreasingAt(s, j, i); }
  }

  function CodeIndex(c: Code): (i: nat)
    ensures i < 23000
  {
    c.letter * 1000 + c.number
  }

  // A set whose members have distinct codes below n has at most n members.
  lemma {:induction false} PigeonHole(s: set<nat>, orders: map<nat, OrderRow>, n: nat)
    requires forall o :: o in s ==> o in orders && CodeIndex(orders[o].code) < n
    requires forall a, b :: a in s && b in s && orders[a].code == orders[b].code ==> a == b
    ensures |s| <= n
    decreases n
  {
    if s != {} {
      var w :| w in s;
      assert CodeIndex(orders[w].code) < n;
      if o :| o in s && CodeIndex(orders[o].code) == n - 1 {
        var rest := s - {o};
        forall p | p in rest ensures CodeIndex(orders[p].code) < n - 1 {
          if CodeIndex(orders[p].code) == n - 1 {
            CodeIndexInjective(orders[o].code, orders[p].code);
          }
        }
        PigeonHole(rest, orders, n - 1);
        assert s == rest + {o};
      } else {
        PigeonHole(s, orders, n - 1);
      }
    }
  }

  lemma CodeIndexInjective(c: Code, d: Code)
    requires CodeIndex(c) == CodeIndex(d)
    ensures c == d
  {
  }

  function OrdersOn(orders: map<nat, OrderRow>, tenant: nat, date: int): set<nat> {
    set o | o in orders && orders[o].tenant == tenant && orders[o].date == date
  }

  // No tenant ever has more than 23,000 orders on one business date.
  lemma DailyOrdersAreBounded(menu: Menu, actions: seq<Action>, tenant: nat, date: int)
    ensures |OrdersOn(ActAll(menu, actions).tables.orders, tenant, date)| <= 23000
  {
    OrdersStand(menu, actions);
    var orders := ActAll(menu, actions).tables.orders;
    PigeonHole(OrdersOn(orders, tenant, date), orders, 23000);
  }

  // getBusinessDate, from hours since the epoch in the app's time zone.
  function BusinessDate(hours: int): int {
    if hours % 24 < 5 then hours / 24 - 1 else hours / 24
  }

  // A business date runs from five in the morning to five the next morning.
  lemma BusinessDateWindow(hours: int, date: int)
    ensures BusinessDate(hours) == date <==> 24 * date + 5 <= hours < 24 * (date + 1) + 5
  {
  }
}
