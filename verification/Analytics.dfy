/**
 The sales aggregations. A query with GROUP BY returns one row per key, in any order;
 the loops over those rows are proved to give back exactly what summing the orders one
 by one gives, so that hours add up to the day, days to the month and tenants to the
 platform.
 */
module Analytics {
  import opened Common
  import opened Lifecycle

  // The columns of an order the queries read; dates are day numbers, `paidAt` seconds.
  datatype Sale = Sale(tenant: nat, date: int, status: OrderStatus, total: nat, paidAt: Option<nat>)

  // One row of a grouped query.
  datatype Group = Group(key: int, count: nat, total: nat)

  // ----- sums over selected orders -----

  function SumIf(rows: seq<Sale>, p: Sale -> bool): nat {
    if rows == [] then 0
    else SumIf(rows[..|rows| - 1], p) + (if p(rows[|rows| - 1]) then rows[|rows| - 1].total else 0)
  }

  function CountIf(rows: seq<Sale>, p: Sale -> bool): nat {
    if rows == [] then 0
    else CountIf(rows[..|rows| - 1], p) + (if p(rows[|rows| - 1]) then 1 else 0)
  }

  lemma {:induction false} SameSelection(rows: seq<Sale>, p: Sale -> bool, q: Sale -> bool)
    requires forall r :: r in rows ==> p(r) == q(r)
    ensures SumIf(rows, p) == SumIf(rows, q) && CountIf(rows, p) == CountIf(rows, q)
  {
    if rows != [] { SameSelection(rows[..|rows| - 1], p, q); }
  }

  lemma {:induction false} EmptySelection(rows: seq<Sale>, p: Sale -> bool)
    requires forall r :: r in rows ==> !p(r)
    ensures SumIf(rows, p) == 0 && CountIf(rows, p) == 0
  {
    if rows != [] { EmptySelection(rows[..|rows| - 1], p); }
  }

  lemma {:induction false} DisjointSelections(rows: seq<Sale>, p: Sale -> bool, q: Sale -> bool, both: Sale -> bool)
    requires forall r :: r in rows ==> !(p(r) && q(r)) && (both(r) <==> p(r) || q(r))
    ensures SumIf(rows, both) == SumIf(rows, p) + SumIf(rows, q)
    ensures CountIf(rows, both) == CountIf(rows, p) + CountIf(rows, q)
  {
    if rows != [] { DisjointSelections(rows[..|rows| - 1], p, q, both); }
  }

  // One selected order counts once, with its own total; with the lemmas above that fixes
  // both sums.
  lemma {:induction false} OneSelected(rows: seq<Sale>, p: Sale -> bool, i: nat)
    requires i < |rows| && forall j :: 0 <= j < |rows| ==> (p(rows[j]) <==> j == i)
    ensures SumIf(rows, p) == rows[i].total && CountIf(rows, p) == 1
  {
    var front := rows[..|rows| - 1];
    if i < |rows| - 1 {
      OneSelected(front, p, i);
    } else {
      EmptySelection(front, p);
    }
  }

  // ----- grouped queries -----

  // The selected rows with one key.
  function WithKey(p: Sale -> bool, key: Sale -> int, k: int): Sale -> bool {
    (r: Sale) => p(r) && key(r) == k
  }

  ghost predicate HasKey(groups: seq<Group>, k: int) {
    exists i :: 0 <= i < |groups| && groups[i].key == k
  }

  lemma HasKeySnoc(groups: seq<Group>, i: nat, k: int)
    requires i < |groups|
    ensures HasKey(groups[..i + 1], k) <==> HasKey(groups[..i], k) || groups[i].key == k
  {
    assert groups[..i + 1] == groups[..i] + [groups[i]];
    if HasKey(groups[..i], k) {
      var j :| 0 <= j < i && groups[..i][j].key == k;
      assert groups[..i + 1][j].key == k;
    }
    assert groups[..i + 1][i] == groups[i];
  }

  // What the database promises of SELECT key, COUNT(*), SUM(total) ... WHERE p GROUP BY key.
  ghost predicate IsGroupBy(rows: seq<Sale>, p: Sale -> bool, key: Sale -> int, groups: seq<Group>) {
    && (forall i, j :: 0 <= i < j < |groups| ==> groups[i].key != groups[j].key)
    && (forall r :: r in rows && p(r) ==> HasKey(groups, key(r)))
    && (forall g :: g in groups ==> IsGroup(rows, p, key, g))
    && (forall g :: g in groups ==> exists r :: r in rows && p(r) && key(r) == g.key)
  }

  ghost predicate IsGroup(rows: seq<Sale>, p: Sale -> bool, key: Sale -> int, g: Group) {
    g.total == SumIf(rows, WithKey(p, key, g.key)) && g.count == CountIf(rows, WithKey(p, key, g.key))
  }

  function GroupTotal(groups: seq<Group>): nat {
    if groups == [] then 0 else GroupTotal(groups[..|groups| - 1]) + groups[|groups| - 1].total
  }

  function GroupCount(groups: seq<Group>): nat {
    if groups == [] then 0 else GroupCount(groups[..|groups| - 1]) + groups[|groups| - 1].count
  }

  ghost function AmongKeys(p: Sale -> bool, key: Sale -> int, groups: seq<Group>): Sale -> bool {
    (r: Sale) => p(r) && HasKey(groups, key(r))
  }

  lemma {:induction false} GroupsCover(rows: seq<Sale>, p: Sale -> bool, key: Sale -> int, groups: seq<Group>)
    requires forall i, j :: 0 <= i < j < |groups| ==> groups[i].key != groups[j].key
    requires forall g :: g in groups ==> IsGroup(rows, p, key, g)
    ensures GroupTotal(groups) == SumIf(rows, AmongKeys(p, key, groups))
    ensures GroupCount(groups) == CountIf(rows, AmongKeys(p, key, groups))
  {
    if groups == [] {
      EmptySelection(rows, AmongKeys(p, key, groups));
    } else {
      var front, last := groups[..|groups| - 1], groups[|groups| - 1];
      GroupsCover(rows, p, key, front);
      forall r: Sale
        ensures AmongKeys(p, key, groups)(r) <==> AmongKeys(p, key, front)(r) || WithKey(p, key, last.key)(r)
        ensures !(AmongKeys(p, key, front)(r) && WithKey(p, key, last.key)(r))
      {
        if HasKey(front, key(r)) {
          var i :| 0 <= i < |front| && front[i].key == key(r);
          assert groups[i].key == key(r);
        }
        if key(r) == last.key { assert groups[|groups| - 1].key == key(r); }
      }
      DisjointSelections(rows, AmongKeys(p, key, front), WithKey(p, key, last.key), AmongKeys(p, key, groups));
      assert last in groups;
    }
  }

  // However the database orders the groups, they add up to the ungrouped sum.
  lemma GroupsAddUp(rows: seq<Sale>, p: Sale -> bool, key: Sale -> int, groups: seq<Group>)
    requires IsGroupBy(rows, p, key, groups)
    ensures GroupTotal(groups) == SumIf(rows, p) && GroupCount(groups) == CountIf(rows, p)
  {
    GroupsCover(rows, p, key, groups);
    SameSelection(rows, p, AmongKeys(p, key, groups));
  }

  // ----- the selections of the queries -----

  function OnDay(tenant: nat, date: int): Sale -> bool {
    (r: Sale) => r.tenant == tenant && r.date == date && IsSalesStatus(r.status)
  }

  function InRange(tenant: nat, start: int, end: int): Sale -> bool {
    (r: Sale) => r.tenant == tenant && start <= r.date <= end && IsSalesStatus(r.status)
  }

  function PaidOnDay(tenant: nat, date: int): Sale -> bool {
    (r: Sale) => OnDay(tenant, date)(r) && r.paidAt.Some?
  }

  function UnpaidOnDay(tenant: nat, date: int): Sale -> bool {
    (r: Sale) => OnDay(tenant, date)(r) && r.paidAt.None?
  }

  function OnPlatform(date: int): Sale -> bool {
    (r: Sale) => r.date == date && IsSalesStatus(r.status)
  }

  function DateOf(r: Sale): int {
    r.date
  }

  function TenantOf(r: Sale): int {
    r.tenant
  }

  function HourOf(r: Sale): (h: int)
    ensures 0 <= h < 24
  {
    r.paidAt.GetOr(0) / 3600 % 24
  }

  // An order is counted in the hour of the day that its second of payment lies in.
  lemma AtHourMeaning(r: Sale, tenant: nat, date: int, h: int)
    ensures AtHour(tenant, date, h)(r) <==>
            && r.tenant == tenant && r.date == date && IsSalesStatus(r.status)
            && r.paidAt.Some? && 3600 * h <= r.paidAt.value % 86400 < 3600 * h + 3600
  {
    if r.paidAt.Some? {
      HourOfSecond(r.paidAt.value);
      var hour := HourOf(r);
      assert hour == r.paidAt.value / 3600 % 24;
      if 3600 * h <= r.paidAt.value % 86400 < 3600 * h + 3600 {
        assert h == hour;
        assert OnDay(tenant, date)(r) <==> r.tenant == tenant && r.date == date && IsSalesStatus(r.status);
        assert PaidOnDay(tenant, date)(r) <==> OnDay(tenant, date)(r);
        assert AtHour(tenant, date, hour)(r) <==> PaidOnDay(tenant, date)(r);
      }
    }
  }

  lemma HourOfSecond(s: nat)
    ensures var hour := s / 3600 % 24; 3600 * hour <= s % 86400 < 3600 * hour + 3600
  {
    var day, second := s / 86400, s % 86400;
    assert s == 86400 * day + second;
    assert s / 3600 == 24 * day + second / 3600;
    assert s / 3600 % 24 == second / 3600;
  }

  // (int) round(total / count), halves away from zero: the one number whose half-open
  // unit interval around it, in halves, holds the quotient.
  function Average(total: nat, count: nat): (avg: nat)
    ensures count > 0 ==> 2 * avg * count <= 2 * total + count < 2 * avg * count + 2 * count
    ensures count == 0 ==> avg == 0
  {
    if count == 0 then 0
    else
      var avg := (2 * total + count) / (2 * count);
      DivisionBounds(2 * total + count, 2 * count);
      assert 2 * count * avg == 2 * avg * count;
      avg
  }

  lemma DivisionBounds(a: nat, b: nat)
    requires b > 0
    ensures b * (a / b) <= a < b * (a / b) + b
  {
  }

  datatype Sales = Sales(totalSales: nat, orderCount: nat, average: nat)

  // ----- the aggregations -----

  // aggregateDailySales: summed by the database itself.
  function DailySales(rows: seq<Sale>, tenant: nat, date: int): Sales {
    var total, count := SumIf(rows, OnDay(tenant, date)), CountIf(rows, OnDay(tenant, date));
    Sales(total, count, Average(total, count))
  }

  // The day's average is its total by its count, rounded to the nearest unit, halves up.
  lemma DailyAverageRounds(rows: seq<Sale>, tenant: nat, date: int)
    ensures var s := DailySales(rows, tenant, date);
            && (s.orderCount == 0 ==> s.average == 0)
            && (s.orderCount > 0 ==>
                  var doubled := 2 * s.totalSales + s.orderCount;
                  2 * s.average * s.orderCount <= doubled < 2 * (s.average + 1) * s.orderCount)
  {
    var s := DailySales(rows, tenant, date);
    assert 2 * (s.average + 1) * s.orderCount == 2 * s.average * s.orderCount + 2 * s.orderCount;
  }

  // The common loop over grouped rows: totals and a breakdown by key.
  method SumGroups(groups: seq<Group>) returns (totalSales: nat, orderCount: nat, breakdown: map<int, (nat, nat)>)
    requires forall i, j :: 0 <= i < j < |groups| ==> groups[i].key != groups[j].key
    ensures totalSales == GroupTotal(groups) && orderCount == GroupCount(groups)
    ensures forall g :: g in groups ==> g.key in breakdown && breakdown[g.key] == (g.total, g.count)
    ensures forall k :: k in breakdown ==> HasKey(groups, k)
  {
    totalSales, orderCount, breakdown := 0, 0, map[];
    for i := 0 to |groups|
      invariant totalSales == GroupTotal(groups[..i]) && orderCount == GroupCount(groups[..i])
      invariant forall j :: 0 <= j < i ==>
                  groups[j].key in breakdown && breakdown[groups[j].key] == (groups[j].total, groups[j].count)
      invariant forall k :: k in breakdown ==> HasKey(groups, k)
    {
      var row := groups[i];
      totalSales := totalSales + row.total;
      orderCount := orderCount + row.count;
      breakdown := breakdown[row.key := (row.total, row.count)];
      assert groups[..i + 1][..i] == groups[..i];
      assert HasKey(groups, groups[i].key);
    }
    assert groups[..|groups|] == groups;
  }

  // The month's totals are those of its orders, and its breakdown gives every day
  // exactly what the daily aggregation gives it.
  method AggregateMonthlySales(rows: seq<Sale>, tenant: nat, start: int, end: int, groups: seq<Group>)
    returns (sales: Sales, breakdown: map<int, (nat, nat)>)
    requires IsGroupBy(rows, InRange(tenant, start, end), DateOf, groups)
    ensures sales.totalSales == SumIf(rows, InRange(tenant, start, end))
    ensures sales.orderCount == CountIf(rows, InRange(tenant, start, end))
    ensures sales.average == Average(sales.totalSales, sales.orderCount)
    ensures forall d :: start <= d <= end ==>
              var daily := DailySales(rows, tenant, d);
              (daily.totalSales, daily.orderCount) == if d in breakdown then breakdown[d] else (0, 0)
  {
    var totalSales, orderCount;
    totalSales, orderCount, breakdown := SumGroups(groups);
    GroupsAddUp(rows, InRange(tenant, start, end), DateOf, groups);
    sales := Sales(totalSales, orderCount, Average(totalSales, orderCount));
    forall d | start <= d <= end
      ensures var daily := DailySales(rows, tenant, d);
              (daily.totalSales, daily.orderCount) == if d in breakdown then breakdown[d] else (0, 0)
    {
      DayInMonth(rows, tenant, start, end, groups, d);
    }
  }

  lemma DayInMonth(rows: seq<Sale>, tenant: nat, start: int, end: int, groups: seq<Group>, d: int)
    requires IsGroupBy(rows, InRange(tenant, start, end), DateOf, groups) && start <= d <= end
    ensures forall g :: g in groups && g.key == d ==>
              g.total == DailySales(rows, tenant, d).totalSales && g.count == DailySales(rows, tenant, d).orderCount
    ensures !HasKey(groups, d) ==>
              DailySales(rows, tenant, d).totalSales == 0 && DailySales(rows, tenant, d).orderCount == 0
  {
    SameSelection(rows, OnDay(tenant, d), WithKey(InRange(tenant, start, end), DateOf, d));
    if !HasKey(groups, d) {
      EmptySelection(rows, OnDay(tenant, d));
    }
  }

  // Days sum to the month, in money and in orders.
  function SumOfDays(rows: seq<Sale>, tenant: nat, start: int, end: int): nat
    decreases end - start + 1
  {
    if start > end then 0 else SumOfDays(rows, tenant, start, end - 1) + DailySales(rows, tenant, end).totalSales
  }

  function CountOfDays(rows: seq<Sale>, tenant: nat, start: int, end: int): nat
    decreases end - start + 1
  {
    if start > end then 0 else CountOfDays(rows, tenant, start, end - 1) + DailySales(rows, tenant, end).orderCount
  }

  lemma {:induction false} DaysSumToRange(rows: seq<Sale>, tenant: nat, start: int, end: int)
    ensures SumOfDays(rows, tenant, start, end) == SumIf(rows, InRange(tenant, start, end))
    ensures CountOfDays(rows, tenant, start, end) == CountIf(rows, InRange(tenant, start, end))
    decreases end - start + 1
  {
    if start > end {
      EmptySelection(rows, InRange(tenant, start, end));
    } else {
      DaysSumToRange(rows, tenant, start, end - 1);
      DisjointSelections(rows, InRange(tenant, start, end - 1), OnDay(tenant, end), InRange(tenant, start, end));
    }
  }

  datatype HourSlot = HourSlot(hour: nat, orderCount: nat, totalAmount: nat)

  function SlotTotal(slots: seq<HourSlot>): nat {
    if slots == [] then 0 else SlotTotal(slots[..|slots| - 1]) + slots[|slots| - 1].totalAmount
  }

  function SlotCount(slots: seq<HourSlot>): nat {
    if slots == [] then 0 else SlotCount(slots[..|slots| - 1]) + slots[|slots| - 1].orderCount
  }

  function AtHour(tenant: nat, date: int, h: int): Sale -> bool {
    WithKey(PaidOnDay(tenant, date), HourOf, h)
  }

  // Twenty-four zero rows, overwritten by the hours the database returns.
  method AggregateHourlyDistribution(rows: seq<Sale>, tenant: nat, date: int, groups: seq<Group>)
    returns (hourlyData: array<HourSlot>)
    requires IsGroupBy(rows, PaidOnDay(tenant, date), HourOf, groups)
    ensures fresh(hourlyData) && hourlyData.Length == 24
    ensures forall h :: 0 <= h < 24 ==>
              hourlyData[h] == HourSlot(h, CountIf(rows, AtHour(tenant, date, h)), SumIf(rows, AtHour(tenant, date, h)))
    ensures SlotTotal(hourlyData[..]) == HourTotal(rows, tenant, date, 24)
    ensures SlotCount(hourlyData[..]) == HourCount(rows, tenant, date, 24)
  {
    hourlyData := new HourSlot[24](h => HourSlot(if h >= 0 then h else 0, 0, 0));
    for i := 0 to |groups|
      invariant forall h :: 0 <= h < 24 && !HasKey(groups[..i], h) ==> hourlyData[h] == HourSlot(h, 0, 0)
      invariant forall j | 0 <= j < i ::
                  0 <= groups[j].key < 24 &&
                  hourlyData[groups[j].key] == HourSlot(groups[j].key, groups[j].count, groups[j].total)
    {
      assert groups[i] in groups;
      hourlyData[groups[i].key] := HourSlot(groups[i].key, groups[i].count, groups[i].total);
      forall h: int { HasKeySnoc(groups, i, h); }
    }
    assert groups[..|groups|] == groups;
    SlotsAreHours(rows, tenant, date, groups, hourlyData[..]);
    hide IsGroupBy, SumIf, CountIf;
    SlotsAddUp(rows, tenant, date, hourlyData[..], 24);
    assert hourlyData[..][..24] == hourlyData[..];
  }

  // Filled from the groups, zero elsewhere, every slot has the figures of its hour.
  lemma SlotsAreHours(rows: seq<Sale>, tenant: nat, date: int, groups: seq<Group>, slots: seq<HourSlot>)
    requires IsGroupBy(rows, PaidOnDay(tenant, date), HourOf, groups) && |slots| == 24
    requires forall h :: 0 <= h < 24 && !HasKey(groups, h) ==> slots[h] == HourSlot(h, 0, 0)
    requires forall j | 0 <= j < |groups| ::
               0 <= groups[j].key < 24 &&
               slots[groups[j].key] == HourSlot(groups[j].key, groups[j].count, groups[j].total)
    ensures forall h :: 0 <= h < 24 ==>
              slots[h] == HourSlot(h, CountIf(rows, AtHour(tenant, date, h)), SumIf(rows, AtHour(tenant, date, h)))
  {
    forall h | 0 <= h < 24
      ensures slots[h] == HourSlot(h, CountIf(rows, AtHour(tenant, date, h)), SumIf(rows, AtHour(tenant, date, h)))
    {
      if HasKey(groups, h) {
        var j :| 0 <= j < |groups| && groups[j].key == h;
        assert groups[j] in groups;
      } else {
        EmptySelection(rows, AtHour(tenant, date, h));
      }
    }
  }

  function Before(tenant: nat, date: int, n: nat): Sale -> bool {
    (r: Sale) => PaidOnDay(tenant, date)(r) && HourOf(r) < n
  }

  // The figures of the first n hours, hour by hour.
  function HourTotal(rows: seq<Sale>, tenant: nat, date: int, n: nat): nat {
    if n == 0 then 0 else HourTotal(rows, tenant, date, n - 1) + SumIf(rows, AtHour(tenant, date, n - 1))
  }

  function HourCount(rows: seq<Sale>, tenant: nat, date: int, n: nat): nat {
    if n == 0 then 0 else HourCount(rows, tenant, date, n - 1) + CountIf(rows, AtHour(tenant, date, n - 1))
  }

  lemma {:induction false} SlotsAddUp(rows: seq<Sale>, tenant: nat, date: int, slots: seq<HourSlot>, n: nat)
    requires n <= |slots|
    requires forall h :: 0 <= h < n ==>
               slots[h] == HourSlot(h, CountIf(rows, AtHour(tenant, date, h)), SumIf(rows, AtHour(tenant, date, h)))
    ensures SlotTotal(slots[..n]) == HourTotal(rows, tenant, date, n)
    ensures SlotCount(slots[..n]) == HourCount(rows, tenant, date, n)
    decreases n
  {
    if n > 0 {
      SlotsAddUp(rows, tenant, date, slots, n - 1);
      assert slots[..n][..n - 1] == slots[..n - 1];
    }
  }

  lemma {:induction false} HoursAddUp(rows: seq<Sale>, tenant: nat, date: int, n: nat)
    ensures HourTotal(rows, tenant, date, n) == SumIf(rows, Before(tenant, date, n))
    ensures HourCount(rows, tenant, date, n) == CountIf(rows, Before(tenant, date, n))
    decreases n
  {
    if n == 0 {
      forall r | r in rows ensures !Before(tenant, date, 0)(r) {
        assert HourOf(r) >= 0;
      }
      EmptySelection(rows, Before(tenant, date, 0));
    } else {
      HoursAddUp(rows, tenant, date, n - 1);
      DisjointSelections(rows, Before(tenant, date, n - 1), AtHour(tenant, date, n - 1), Before(tenant, date, n));
    }
  }

  // Every paid order of the day falls into one of its twenty-four hours.
  lemma HoursCoverThePaid(rows: seq<Sale>, tenant: nat, date: int)
    ensures HourTotal(rows, tenant, date, 24) == SumIf(rows, PaidOnDay(tenant, date))
    ensures HourCount(rows, tenant, date, 24) == CountIf(rows, PaidOnDay(tenant, date))
  {
    HoursAddUp(rows, tenant, date, 24);
    SameSelection(rows, PaidOnDay(tenant, date), Before(tenant, date, 24));
  }

  // The twenty-four hours sum to the day exactly when the day's unpaid-looking sales come
  // to nothing; the settlement protocol guarantees that there are none.
  lemma HoursSumToDay(rows: seq<Sale>, tenant: nat, date: int)
    ensures HourTotal(rows, tenant, date, 24) == DailySales(rows, tenant, date).totalSales <==>
            SumIf(rows, UnpaidOnDay(tenant, date)) == 0
    ensures HourCount(rows, tenant, date, 24) == DailySales(rows, tenant, date).orderCount <==>
            CountIf(rows, UnpaidOnDay(tenant, date)) == 0
    ensures (forall r :: r in rows && IsSalesStatus(r.status) ==> r.paidAt.Some?) ==>
              && HourTotal(rows, tenant, date, 24) == DailySales(rows, tenant, date).totalSales
              && HourCount(rows, tenant, date, 24) == DailySales(rows, tenant, date).orderCount
  {
    HoursCoverThePaid(rows, tenant, date);
    DisjointSelections(rows, PaidOnDay(tenant, date), UnpaidOnDay(tenant, date), OnDay(tenant, date));
    if forall r :: r in rows && IsSalesStatus(r.status) ==> r.paidAt.Some? {
      EmptySelection(rows, UnpaidOnDay(tenant, date));
    }
  }

  lemma AbsentTenant(rows: seq<Sale>, date: int, groups: seq<Group>, t: nat)
    requires IsGroupBy(rows, OnPlatform(date), TenantOf, groups) && !HasKey(groups, t)
    ensures DailySales(rows, t, date).totalSales == 0 && DailySales(rows, t, date).orderCount == 0
  {
    EmptySelection(rows, OnDay(t, date));
  }

  // The platform's day is the sum over the tenants, each with its own daily figure.
  method AggregatePlatformDailySales(rows: seq<Sale>, date: int, groups: seq<Group>)
    returns (sales: Sales, breakdown: map<int, (nat, nat)>)
    requires IsGroupBy(rows, OnPlatform(date), TenantOf, groups)
    ensures sales.totalSales == SumIf(rows, OnPlatform(date))
    ensures sales.orderCount == CountIf(rows, OnPlatform(date))
    ensures sales.average == Average(sales.totalSales, sales.orderCount)
    ensures sales.totalSales == GroupTotal(groups)
    ensures forall t: nat :: t in breakdown ==>
              breakdown[t] == (DailySales(rows, t, date).totalSales, DailySales(rows, t, date).orderCount)
    ensures forall t: nat :: t !in breakdown ==>
              DailySales(rows, t, date).totalSales == 0 && DailySales(rows, t, date).orderCount == 0
  {
    var totalSales, orderCount;
    totalSales, orderCount, breakdown := SumGroups(groups);
    GroupsAddUp(rows, OnPlatform(date), TenantOf, groups);
    forall t: nat | t !in breakdown
      ensures DailySales(rows, t, date).totalSales == 0 && DailySales(rows, t, date).orderCount == 0
    {
      assert forall i | 0 <= i < |groups| :: groups[i] in groups;
      AbsentTenant(rows, date, groups, t);
    }
    sales := Sales(totalSales, orderCount, Average(totalSales, orderCount));
    forall t: nat | t in breakdown
      ensures breakdown[t] == (DailySales(rows, t, date).totalSales, DailySales(rows, t, date).orderCount)
    {
      SameSelection(rows, OnDay(t, date), WithKey(OnPlatform(date), TenantOf, t));
      var i :| 0 <= i < |groups| && groups[i].key == t;
      assert groups[i] in groups;
    }
  }
}
