/**
 The kitchen display's delta merge against applying the changes one by one. A JavaScript
 Map keeps its keys in insertion order: setting a present key keeps its place, deleting
 and setting again moves it to the end.
 */
module KdsMerge {
  import opened Common

  datatype Status = Paid | Accepted | InProgress | Ready | Completed | Cancelled

  // `rest` stands for everything the display shows of an order.
  datatype KdsOrder = KdsOrder(id: nat, status: Status, rest: string)

  predicate IsActive(o: KdsOrder) {
    o.status in {Paid, Accepted, InProgress, Ready}
  }

  // What is neither completed nor cancelled is on the display.
  lemma ActiveMeaning(o: KdsOrder)
    ensures IsActive(o) <==> o.status !in {Completed, Cancelled}
  {
    match o.status
    case Paid =>
    case _ =>
  }

  // ----- one change at a time -----

  function WithoutId(orders: seq<KdsOrder>, id: nat): seq<KdsOrder> {
    if orders == [] then []
    else
      var front, last := WithoutId(orders[..|orders| - 1], id), orders[|orders| - 1];
      if last.id == id then front else front + [last]
  }

  predicate HasId(orders: seq<KdsOrder>, id: nat) {
    exists i | 0 <= i < |orders| :: orders[i].id == id
  }

  function Replaced(orders: seq<KdsOrder>, o: KdsOrder): seq<KdsOrder> {
    seq(|orders|, i requires 0 <= i < |orders| => if orders[i].id == o.id then o else orders[i])
  }

  function Upsert(orders: seq<KdsOrder>, o: KdsOrder): seq<KdsOrder> {
    if !IsActive(o) then WithoutId(orders, o.id)
    else if HasId(orders, o.id) then Replaced(orders, o)
    else orders + [o]
  }

  function UpsertAll(orders: seq<KdsOrder>, incoming: seq<KdsOrder>): seq<KdsOrder>
    decreases |incoming|
  {
    if incoming == [] then orders
    else Upsert(UpsertAll(orders, incoming[..|incoming| - 1]), incoming[|incoming| - 1])
  }

  // The active incoming orders whose id was not known.
  function Unknown(incoming: seq<KdsOrder>, known: set<nat>): seq<KdsOrder> {
    if incoming == [] then []
    else
      var front, last := Unknown(incoming[..|incoming| - 1], known), incoming[|incoming| - 1];
      if IsActive(last) && last.id !in known then front + [last] else front
  }

  function KnownIds(orders: seq<KdsOrder>): set<nat> {
    set o | o in orders :: o.id
  }

  method UpsertActiveOrder(existing: seq<KdsOrder>, incoming: KdsOrder) returns (next: seq<KdsOrder>)
    ensures next == Upsert(existing, incoming)
  {
    next := [];
    if !IsActive(incoming) {
      for i := 0 to |existing|
        invariant next == WithoutId(existing[..i], incoming.id)
      {
        if existing[i].id != incoming.id {
          next := next + [existing[i]];
        }
        assert existing[..i + 1][..i] == existing[..i];
      }
      assert existing[..|existing|] == existing;
      return;
    }
    var found := false;
    for i := 0 to |existing|
      invariant next == Replaced(existing[..i], incoming)
      invariant found == HasId(existing[..i], incoming.id)
    {
      HasIdSnoc(existing, i, incoming.id);
      if existing[i].id != incoming.id {
        next := next + [existing[i]];
      } else {
        found := true;
        next := next + [incoming];
      }
    }
    assert existing[..|existing|] == existing;
    if !found {
      assert Replaced(existing, incoming) == existing;
      next := next + [incoming];
    }
  }

  lemma HasIdSnoc(orders: seq<KdsOrder>, i: nat, id: nat)
    requires i < |orders|
    ensures HasId(orders[..i + 1], id) <==> HasId(orders[..i], id) || orders[i].id == id
  {
    assert orders[..i + 1] == orders[..i] + [orders[i]];
    if HasId(orders[..i], id) {
      var j :| 0 <= j < i && orders[..i][j].id == id;
      assert orders[..i + 1][j].id == id;
    }
    assert orders[..i + 1][i] == orders[i];
  }

  // ----- the ordered map -----

  function Look(keys: seq<nat>, vals: map<nat, KdsOrder>): seq<KdsOrder>
    requires forall k :: k in keys ==> k in vals
  {
    seq(|keys|, i requires 0 <= i < |keys| => vals[keys[i]])
  }

  datatype OrderMap = OrderMap(keys: seq<nat>, vals: map<nat, KdsOrder>) {
    ghost predicate Valid() {
      && (forall i, j :: 0 <= i < j < |keys| ==> keys[i] != keys[j])
      && (forall k :: k in keys ==> k in vals && vals[k].id == k)
      && (forall k :: k in vals ==> k in keys)
    }

    function Values(): seq<KdsOrder>
      requires Valid()
    {
      Look(keys, vals)
    }

    function Set(o: KdsOrder): OrderMap {
      OrderMap(if o.id in vals then keys else keys + [o.id], vals[o.id := o])
    }

    function Delete(id: nat): OrderMap {
      OrderMap(Without(keys, id), vals - {id})
    }
  }

  function Without(keys: seq<nat>, id: nat): seq<nat> {
    if keys == [] then []
    else
      var front, last := Without(keys[..|keys| - 1], id), keys[|keys| - 1];
      if last == id then front else front + [last]
  }

  lemma {:induction false} WithoutFacts(keys: seq<nat>, id: nat)
    requires forall i, j :: 0 <= i < j < |keys| ==> keys[i] != keys[j]
    ensures var r := Without(keys, id);
            && (forall i, j :: 0 <= i < j < |r| ==> r[i] != r[j])
            && (forall k :: k in r <==> k in keys && k != id)
  {
    if keys != [] {
      var front, last := keys[..|keys| - 1], keys[|keys| - 1];
      WithoutFacts(front, id);
      assert keys == front + [last];
      var r := Without(front, id);
      forall i | 0 <= i < |r| ensures r[i] != last {
        assert r[i] in front;
      }
    }
  }

  lemma {:induction false} WithoutIsFilter(keys: seq<nat>, vals: map<nat, KdsOrder>, id: nat)
    requires forall k :: k in keys ==> k in vals && vals[k].id == k
    ensures forall k :: k in Without(keys, id) ==> k in keys
    ensures Look(Without(keys, id), vals) == WithoutId(Look(keys, vals), id)
  {
    if keys != [] {
      var n := |keys| - 1;
      WithoutIsFilter(keys[..n], vals, id);
      assert Look(keys, vals)[..n] == Look(keys[..n], vals);
    }
  }

  // Deleting the key and filtering the values are the same thing.
  lemma DeleteIsFilter(m: OrderMap, id: nat)
    requires m.Valid()
    ensures m.Delete(id).Valid() && m.Delete(id).Values() == WithoutId(m.Values(), id)
  {
    WithoutFacts(m.keys, id);
    WithoutIsFilter(m.keys, m.vals, id);
    hide Without, WithoutId;
    assert Look(m.Delete(id).keys, m.Delete(id).vals) == Look(m.Delete(id).keys, m.vals);
  }

  // Setting a key is replacing in place or appending.
  lemma SetIsUpsert(m: OrderMap, o: KdsOrder)
    requires m.Valid() && IsActive(o)
    ensures m.Set(o).Valid() && m.Set(o).Values() == Upsert(m.Values(), o)
  {
    var m' := m.Set(o);
    SetKeepsValid(m, o);
    if o.id in m.vals {
      var i :| 0 <= i < |m.keys| && m.keys[i] == o.id;
      assert m.Values()[i].id == o.id;
      assert m'.Values() == Replaced(m.Values(), o);
    } else {
      assert forall i :: 0 <= i < |m.keys| ==> m.Values()[i].id != o.id;
      assert m'.Values() == m.Values() + [o];
    }
  }

  ghost predicate DistinctIds(orders: seq<KdsOrder>) {
    forall i, j :: 0 <= i < j < |orders| ==> orders[i].id != orders[j].id
  }

  lemma DistinctIsNew(existing: seq<KdsOrder>, i: nat)
    requires DistinctIds(existing) && i < |existing|
    ensures !HasId(existing[..i], existing[i].id)
  {
  }

  lemma SetAddsOneKey(m: OrderMap, o: KdsOrder)
    ensures m.Set(o).vals.Keys == m.vals.Keys + {o.id}
  {
  }

  lemma SetAppends(m: OrderMap, o: KdsOrder)
    requires m.Valid() && o.id !in m.vals
    ensures m.Set(o).Valid() && m.Set(o).Values() == m.Values() + [o]
  {
    SetKeepsValid(m, o);
  }

  // The map after the first i rows.
  ghost predicate MapsPrefix(m: OrderMap, existing: seq<KdsOrder>, i: nat) {
    && i <= |existing| && m.Valid()
    && (forall k :: k in m.vals ==> HasId(existing[..i], k))
    && (DistinctIds(existing) ==> m.Values() == existing[..i])
  }

  lemma MapsOneMore(m: OrderMap, existing: seq<KdsOrder>, i: nat)
    requires MapsPrefix(m, existing, i) && i < |existing|
    ensures MapsPrefix(m.Set(existing[i]), existing, i + 1)
  {
    var o := existing[i];
    SetKeepsValid(m, o);
    SetAddsOneKey(m, o);
    forall k | k in m.Set(o).vals ensures HasId(existing[..i + 1], k) {
      HasIdSnoc(existing, i, k);
    }
    if DistinctIds(existing) {
      DistinctIsNew(existing, i);
      SetAppends(m, o);
      assert existing[..i + 1] == existing[..i] + [o];
    }
    hide HasId, Look;
  }

  // `new Map(existing.map(...))`
  method MapOf(existing: seq<KdsOrder>) returns (existingMap: OrderMap)
    ensures existingMap.Valid()
    ensures DistinctIds(existing) ==> existingMap.Values() == existing
  {
    hide HasId, Look, DistinctIds;
    existingMap := OrderMap([], map[]);
    assert existingMap.Values() == existing[..0] by { NothingMapped(); }
    for i := 0 to |existing|
      invariant MapsPrefix(existingMap, existing, i)
    {
      MapsOneMore(existingMap, existing, i);
      existingMap := existingMap.Set(existing[i]);
    }
    assert existing[..|existing|] == existing;
  }

  lemma NothingMapped()
    ensures OrderMap([], map[]).Valid() && OrderMap([], map[]).Values() == []
  {
  }

  // Every row of the current list with the incoming ones set or deleted in turn. With
  // distinct ids the result is that of applying them one by one, order included.
  method MergeOrders(existing: seq<KdsOrder>, incoming: seq<KdsOrder>)
    returns (merged: seq<KdsOrder>, newOrders: seq<KdsOrder>)
    ensures DistinctIds(existing) ==> merged == UpsertAll(existing, incoming)
    ensures newOrders == Unknown(incoming, KnownIds(existing))
    ensures forall o :: o in newOrders <==>
              o in incoming && o.status !in {Completed, Cancelled} && forall e :: e in existing ==> e.id != o.id
    ensures DistinctIds(merged)
  {
    UnknownMembers(incoming, existing);
    hide KnownIds, WithoutId, Replaced;
    var existingIds := KnownIds(existing);
    newOrders := [];
    var existingMap := MapOf(existing);
    for i := 0 to |incoming|
      invariant existingMap.Valid()
      invariant DistinctIds(existing) ==> existingMap.Values() == UpsertAll(existing, incoming[..i])
      invariant newOrders == Unknown(incoming[..i], existingIds)
    {
      var order := incoming[i];
      assert incoming[..i + 1][..i] == incoming[..i];
      if !IsActive(order) {
        DeleteIsFilter(existingMap, order.id);
        existingMap := existingMap.Delete(order.id);
        continue;
      }
      if order.id !in existingIds {
        newOrders := newOrders + [order];
      }
      SetIsUpsert(existingMap, order);
      existingMap := existingMap.Set(order);
    }
    assert incoming[..|incoming|] == incoming;
    merged := existingMap.Values();
  }

  lemma {:induction false} UnknownMembers(incoming: seq<KdsOrder>, existing: seq<KdsOrder>)
    ensures forall o :: o in Unknown(incoming, KnownIds(existing)) <==>
              o in incoming && o.status !in {Completed, Cancelled} && forall e :: e in existing ==> e.id != o.id
  {
    if incoming != [] {
      UnknownMembers(incoming[..|incoming| - 1], existing);
      ActiveMeaning(incoming[|incoming| - 1]);
      hide IsActive;
      assert forall o :: o in incoming <==> o in incoming[..|incoming| - 1] || o == incoming[|incoming| - 1];
    }
  }

  lemma SetKeepsValid(m: OrderMap, o: KdsOrder)
    requires m.Valid()
    ensures m.Set(o).Valid()
  {
  }

  // ----- what the merge keeps and means -----

  // Merging two batches one after the other is merging them together.
  lemma {:induction false} BatchesCompose(orders: seq<KdsOrder>, a: seq<KdsOrder>, b: seq<KdsOrder>)
    ensures UpsertAll(orders, a + b) == UpsertAll(UpsertAll(orders, a), b)
    decreases |b|
  {
    if b == [] {
      assert a + b == a;
    } else {
      assert (a + b)[..|a + b| - 1] == a + b[..|b| - 1];
      BatchesCompose(orders, a, b[..|b| - 1]);
    }
  }

  lemma {:induction false} WithoutIdFacts(orders: seq<KdsOrder>, id: nat)
    ensures forall o :: o in WithoutId(orders, id) <==> o in orders && o.id != id
    ensures DistinctIds(orders) ==> DistinctIds(WithoutId(orders, id))
  {
    if orders != [] {
      var front, last := orders[..|orders| - 1], orders[|orders| - 1];
      WithoutIdFacts(front, id);
      assert orders == front + [last];
      if DistinctIds(orders) {
        var r := WithoutId(front, id);
        forall i | 0 <= i < |r| ensures r[i].id != last.id {
          assert r[i] in front;
        }
      }
    }
  }

  ghost predicate AllActive(orders: seq<KdsOrder>) {
    forall o :: o in orders ==> IsActive(o)
  }

  // What the display needs of its list survives every merge.
  lemma {:induction false} MergeKeepsListSound(orders: seq<KdsOrder>, incoming: seq<KdsOrder>)
    requires DistinctIds(orders) && AllActive(orders)
    ensures DistinctIds(UpsertAll(orders, incoming)) && AllActive(UpsertAll(orders, incoming))
    decreases |incoming|
  {
    if incoming != [] {
      var front, last := incoming[..|incoming| - 1], incoming[|incoming| - 1];
      MergeKeepsListSound(orders, front);
      WithoutIdFacts(UpsertAll(orders, front), last.id);
    }
  }

  // The last word about an id in a batch, if any.
  function LastWord(incoming: seq<KdsOrder>, id: nat): Option<KdsOrder> {
    if incoming == [] then None
    else if incoming[|incoming| - 1].id == id then Some(incoming[|incoming| - 1])
    else LastWord(incoming[..|incoming| - 1], id)
  }

  // Membership by last word: whatever came in between, an order is listed exactly if
  // its last incoming row is active and equal to it, or if it was listed and the batch
  // does not mention it.
  lemma {:induction false} LastWordDecides(orders: seq<KdsOrder>, incoming: seq<KdsOrder>, o: KdsOrder)
    requires DistinctIds(orders) && AllActive(orders)
    ensures o in UpsertAll(orders, incoming) <==>
            match LastWord(incoming, o.id)
            case Some(w) => w.status !in {Completed, Cancelled} && o == w
            case None => o in orders
    decreases |incoming|
  {
    if incoming != [] {
      var front, last := incoming[..|incoming| - 1], incoming[|incoming| - 1];
      var now := UpsertAll(orders, front);
      LastWordDecides(orders, front, o);
      MergeKeepsListSound(orders, front);
      WithoutIdFacts(now, last.id);
      ActiveMeaning(last);
      if IsActive(last) && HasId(now, last.id) {
        ReplacedFacts(now, last, o);
      }
    }
  }

  lemma ReplacedFacts(orders: seq<KdsOrder>, o: KdsOrder, p: KdsOrder)
    requires HasId(orders, o.id)
    ensures p in Replaced(orders, o) <==> if p.id == o.id then p == o else p in orders
  {
    var r := Replaced(orders, o);
    var i :| 0 <= i < |orders| && orders[i].id == o.id;
    assert r[i] == o;
    if p in orders && p.id != o.id {
      var j :| 0 <= j < |orders| && orders[j] == p;
      assert r[j] == p;
    }
  }

  // ----- what two batches announce -----

  lemma {:induction false} UnknownConcat(a: seq<KdsOrder>, b: seq<KdsOrder>, known: set<nat>)
    ensures Unknown(a + b, known) == Unknown(a, known) + Unknown(b, known)
    decreases |b|
  {
    if b == [] {
      assert a + b == a;
    } else {
      assert (a + b)[..|a + b| - 1] == a + b[..|b| - 1];
      UnknownConcat(a, b[..|b| - 1], known);
    }
  }

  lemma {:induction false} UnknownMeaning(incoming: seq<KdsOrder>, known: set<nat>, o: KdsOrder)
    ensures o in Unknown(incoming, known) <==> o in incoming && IsActive(o) && o.id !in known
  {
    if incoming != [] {
      UnknownMeaning(incoming[..|incoming| - 1], known, o);
      assert incoming == incoming[..|incoming| - 1] + [incoming[|incoming| - 1]];
    }
  }

  // The same rows are new against two sets of known ids exactly if the sets agree on
  // every active row.
  lemma {:induction false} UnknownSameIff(incoming: seq<KdsOrder>, k: set<nat>, l: set<nat>)
    ensures Unknown(incoming, k) == Unknown(incoming, l) <==>
            forall o :: o in incoming && IsActive(o) ==> (o.id in k <==> o.id in l)
  {
    if Unknown(incoming, k) == Unknown(incoming, l) {
      forall o | o in incoming && IsActive(o) ensures o.id in k <==> o.id in l {
        UnknownMeaning(incoming, k, o);
        UnknownMeaning(incoming, l, o);
      }
    } else {
      UnknownSame(incoming, k, l);
    }
  }

  lemma {:induction false} UnknownSame(incoming: seq<KdsOrder>, k: set<nat>, l: set<nat>)
    ensures (forall o :: o in incoming && IsActive(o) ==> (o.id in k <==> o.id in l)) ==>
              Unknown(incoming, k) == Unknown(incoming, l)
  {
    if incoming != [] {
      var front, last := incoming[..|incoming| - 1], incoming[|incoming| - 1];
      UnknownSame(front, k, l);
      assert forall o :: o in front ==> o in incoming;
      assert last in incoming;
    }
  }

  lemma {:induction false} LastWordHasId(incoming: seq<KdsOrder>, id: nat)
    ensures LastWord(incoming, id).Some? ==> LastWord(incoming, id).value.id == id
  {
    if incoming != [] { LastWordHasId(incoming[..|incoming| - 1], id); }
  }

  lemma IdsAfterMerge(orders: seq<KdsOrder>, incoming: seq<KdsOrder>, id: nat)
    requires DistinctIds(orders) && AllActive(orders)
    ensures id in KnownIds(UpsertAll(orders, incoming)) <==>
            match LastWord(incoming, id)
            case Some(w) => IsActive(w)
            case None => id in KnownIds(orders)
  {
    hide UpsertAll, LastWord, DistinctIds, AllActive;
    LastWordHasId(incoming, id);
    if id in KnownIds(UpsertAll(orders, incoming)) {
      var o :| o in UpsertAll(orders, incoming) && o.id == id;
      LastWordDecides(orders, incoming, o);
    }
    match LastWord(incoming, id)
    case Some(w) =>
      LastWordDecides(orders, incoming, w);
      ActiveMeaning(w);
    case None =>
      if o :| o in orders && o.id == id { LastWordDecides(orders, incoming, o); }
  }

  // Batch `a` has neither brought nor taken away an order that `b` goes on to list.
  ghost predicate LeavesNewsOf(orders: seq<KdsOrder>, a: seq<KdsOrder>, b: seq<KdsOrder>) {
    forall o :: o in b && IsActive(o) && LastWord(a, o.id).Some? ==>
      (IsActive(LastWord(a, o.id).value) <==> o.id in KnownIds(orders))
  }

  // Two batches announce what one would exactly in that case. Otherwise an order that `a`
  // brought is announced again by the single batch, and one that `a` took away is
  // announced by the second batch alone.
  lemma BatchesAnnounceTheSameIff(orders: seq<KdsOrder>, a: seq<KdsOrder>, b: seq<KdsOrder>)
    requires DistinctIds(orders) && AllActive(orders)
    ensures var together := Unknown(a + b, KnownIds(orders));
            var apart := Unknown(a, KnownIds(orders)) + Unknown(b, KnownIds(UpsertAll(orders, a)));
            together == apart <==> LeavesNewsOf(orders, a, b)
  {
    var k, l := KnownIds(orders), KnownIds(UpsertAll(orders, a));
    UnknownConcat(a, b, k);
    UnknownSameIff(b, k, l);
    hide UpsertAll, Unknown, LastWord, DistinctIds, AllActive, KnownIds;
    forall o | o in b {
      IdsAfterMerge(orders, a, o.id);
    }
    if Unknown(a + b, k) == Unknown(a, k) + Unknown(b, l) {
      assert Unknown(b, k) == Unknown(a + b, k)[|Unknown(a, k)|..] == Unknown(b, l);
    }
  }

  // An order listed by both batches is announced once by the two and twice by the
  // concatenation; a real poll lists no order twice.
  lemma ListedTwiceIsAnnouncedTwice(o: KdsOrder)
    requires IsActive(o)
    ensures Unknown([o] + [o], KnownIds([])) == [o, o]
    ensures Unknown([o], KnownIds([])) + Unknown([o], KnownIds(UpsertAll([], [o]))) == [o]
    ensures !LeavesNewsOf([], [o], [o])
  {
    assert KnownIds([]) == {};
    LastWordOfOne(o);
    hide UpsertAll, Unknown, KnownIds, LastWord;
    IdsAfterMerge([], [o], o.id);
    UnknownOfOne(o, KnownIds([]));
    UnknownOfOne(o, KnownIds(UpsertAll([], [o])));
    UnknownConcat([o], [o], KnownIds([]));
    assert o in [o];
  }

  lemma LastWordOfOne(o: KdsOrder)
    ensures LastWord([o], o.id) == Some(o)
  {
  }

  lemma UnknownOfOne(o: KdsOrder, known: set<nat>)
    requires IsActive(o)
    ensures Unknown([o], known) == if o.id in known then [] else [o]
  {
    assert [o][..0] == [];
  }
}
