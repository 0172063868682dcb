/**
 The Gregorian calendar from year 1 on, as far as the sales charts walk it: days, weeks
 that start on Monday, months of varying length, leap years.
 */
module Calendar {

  datatype Date = Date(year: nat, month: nat, day: nat)

  predicate IsLeap(y: nat) {
    y % 4 == 0 && (y % 100 != 0 || y % 400 == 0)
  }

  function DaysInMonth(y: nat, m: nat): nat {
    if m in {4, 6, 9, 11} then 30
    else if m == 2 then (if IsLeap(y) then 29 else 28)
    else 31
  }

  predicate IsDate(d: Date) {
    1 <= d.year && 1 <= d.month <= 12 && 1 <= d.day <= DaysInMonth(d.year, d.month)
  }

  type Day = d: Date | IsDate(d) witness Date(1970, 1, 1)

  // ----- day numbers -----

  function DaysBeforeYear(y: nat): nat
    requires y >= 1
  {
    if y == 1 then 0 else DaysBeforeYear(y - 1) + (if IsLeap(y - 1) then 366 else 365)
  }

  function DaysBeforeMonth(y: nat, m: nat): nat
    requires 1 <= m <= 13
  {
    if m == 1 then 0 else DaysBeforeMonth(y, m - 1) + DaysInMonth(y, m - 1)
  }

  function Ordinal(d: Day): (n: nat)
    ensures n >= 1
  {
    DaysBeforeYear(d.year) + DaysBeforeMonth(d.year, d.month) + d.day
  }

  lemma YearLength(y: nat)
    ensures DaysBeforeMonth(y, 13) == if IsLeap(y) then 366 else 365
  {
    var feb := DaysInMonth(y, 2);
    assert DaysBeforeMonth(y, 2) == 31;
    assert DaysBeforeMonth(y, 3) == 31 + feb;
    assert DaysBeforeMonth(y, 4) == 62 + feb;
    assert DaysBeforeMonth(y, 5) == 92 + feb;
    assert DaysBeforeMonth(y, 6) == 123 + feb;
    assert DaysBeforeMonth(y, 7) == 153 + feb;
    assert DaysBeforeMonth(y, 8) == 184 + feb;
    assert DaysBeforeMonth(y, 9) == 215 + feb;
    assert DaysBeforeMonth(y, 10) == 245 + feb;
    assert DaysBeforeMonth(y, 11) == 276 + feb;
    assert DaysBeforeMonth(y, 12) == 306 + feb;
  }

  // The month lengths against the closed form for years that begin in March.
  lemma MonthsInClosedForm(y: nat, m: nat)
    requires 3 <= m <= 13
    ensures DaysBeforeMonth(y, m) == (153 * (m - 3) + 2) / 5 + 59 + (if IsLeap(y) then 1 else 0)
    ensures DaysBeforeMonth(y, 2) == 31 && DaysBeforeMonth(y, 1) == 0
  {
    YearLength(y);
    if m > 3 { MonthsInClosedForm(y, m - 1); }
    assert DaysBeforeMonth(y, 2) == 31;
  }

  function AddDay(d: Day): Day {
    if d.day < DaysInMonth(d.year, d.month) then d.(day := d.day + 1)
    else FirstOfNextMonth(d)
  }

  function FirstOfNextMonth(d: Day): Day {
    if d.month < 12 then Date(d.year, d.month + 1, 1) else Date(d.year + 1, 1, 1)
  }

  lemma NextMonthOrdinal(d: Day)
    ensures Ordinal(FirstOfNextMonth(d)) == Ordinal(d) + (DaysInMonth(d.year, d.month) - d.day) + 1
  {
    if d.month == 12 { YearLength(d.year); }
  }

  // Walking one day forward is counting one up, across months and leap years.
  lemma AddDayCounts(d: Day)
    ensures Ordinal(AddDay(d)) == Ordinal(d) + 1
  {
    NextMonthOrdinal(d);
  }

  lemma {:induction false} MonthsGrow(y: nat, m: nat, n: nat)
    requires 1 <= m < n <= 13
    ensures DaysBeforeMonth(y, m) + DaysInMonth(y, m) <= DaysBeforeMonth(y, n)
  {
    if m + 1 < n { MonthsGrow(y, m, n - 1); }
  }

  lemma {:induction false} YearsGrow(y: nat, z: nat)
    requires 1 <= y < z
    ensures DaysBeforeYear(y) + DaysBeforeMonth(y, 13) <= DaysBeforeYear(z)
  {
    YearLength(y);
    if y + 1 < z { YearsGrow(y, z - 1); }
  }

  lemma EarlierIsSmaller(a: Day, b: Day)
    requires a.year < b.year || (a.year == b.year && (a.month < b.month || (a.month == b.month && a.day < b.day)))
    ensures Ordinal(a) < Ordinal(b)
  {
    if a.year < b.year {
      YearsGrow(a.year, b.year);
      MonthsGrow(a.year, a.month, 13);
    } else if a.month < b.month {
      MonthsGrow(a.year, a.month, b.month);
    }
  }

  // No two days share a number.
  lemma OrdinalInjective(a: Day, b: Day)
    requires Ordinal(a) == Ordinal(b)
    ensures a == b
  {
    if a != b {
      if a.year < b.year || (a.year == b.year && (a.month < b.month || (a.month == b.month && a.day < b.day))) {
        EarlierIsSmaller(a, b);
      } else {
        EarlierIsSmaller(b, a);
      }
    }
  }

  // ----- weeks -----

  // 0 is Sunday; the first day of year 1 was a Monday.
  function DayOfWeek(d: Day): nat {
    Ordinal(d) % 7
  }

  lemma QuotientStep(x: nat, k: nat)
    requires k > 0
    ensures (x + 1) / k == x / k + (if (x + 1) % k == 0 then 1 else 0)
  {
    var q, r := x / k, x % k;
    assert x == k * q + r;
    if r + 1 < k {
      QuotientIs(x + 1, k, q, r + 1);
    } else {
      assert x + 1 == k * (q + 1) + 0;
      QuotientIs(x + 1, k, q + 1, 0);
    }
  }

  lemma QuotientIs(x: nat, k: nat, q: nat, r: nat)
    requires r < k && x == k * q + r
    ensures x / k == q && x % k == r
  {
    var d := x / k - q;
    assert k * d == r - x % k;
    if d > 0 { MultipleGrows(k, d); }
    if d < 0 { MultipleGrows(k, -d); }
  }

  lemma MultipleGrows(k: nat, d: int)
    requires d > 0
    ensures k * d >= k
  {
    assert k * d == k + k * (d - 1);
  }

  lemma LeapNesting(y: nat)
    ensures y % 100 == 0 ==> y % 4 == 0
    ensures y % 400 == 0 ==> y % 100 == 0
    ensures IsLeap(y) <==> y % 4 == 0 && (y % 100 == 0 ==> y % 400 == 0)
  {
    if y % 100 == 0 { QuotientIs(y, 4, 25 * (y / 100), 0); }
    if y % 400 == 0 { QuotientIs(y, 100, 4 * (y / 400), 0); }
  }

  lemma {:induction false} YearsInClosedForm(y: nat)
    requires y >= 1
    ensures DaysBeforeYear(y) == 365 * (y - 1) + (y - 1) / 4 - (y - 1) / 100 + (y - 1) / 400
  {
    if y > 1 {
      YearsInClosedForm(y - 1);
      QuotientStep(y - 2, 4);
      QuotientStep(y - 2, 100);
      QuotientStep(y - 2, 400);
      LeapNesting(y - 1);
      hide IsLeap;
    }
  }

  // Anchors the weekdays: the epoch fell on a Thursday.
  lemma EpochIsThursday(epoch: Day)
    requires epoch == Date(1970, 1, 1)
    ensures DayOfWeek(epoch) == 4
  {
    hide DaysBeforeYear;
    YearsInClosedForm(epoch.year);
    assert DaysBeforeMonth(epoch.year, 1) == 0;
  }

  function AddDays(d: Day, n: nat): (r: Day)
    ensures Ordinal(r) == Ordinal(d) + n
    decreases n
  {
    if n == 0 then d
    else
      AddDayCounts(d);
      AddDays(AddDay(d), n - 1)
  }

  function SubDay(d: Day): Day
    requires d != Date(1, 1, 1)
  {
    if d.day > 1 then d.(day := d.day - 1)
    else if d.month > 1 then Date(d.year, d.month - 1, DaysInMonth(d.year, d.month - 1))
    else Date(d.year - 1, 12, 31)
  }

  lemma SubDayInverts(d: Day)
    requires d != Date(1, 1, 1)
    ensures AddDay(SubDay(d)) == d && Ordinal(SubDay(d)) == Ordinal(d) - 1
  {
    AddDayCounts(SubDay(d));
  }

  // endOfWeek(Carbon::SUNDAY)
  function EndOfWeek(d: Day): Day {
    AddDays(d, if DayOfWeek(d) == 0 then 0 else 7 - DayOfWeek(d))
  }

  lemma EndOfWeekIsSunday(d: Day)
    ensures DayOfWeek(EndOfWeek(d)) == 0 && Ordinal(d) <= Ordinal(EndOfWeek(d)) < Ordinal(d) + 7
    ensures Ordinal(EndOfWeek(d)) + 1 == Ordinal(d) + 7 <==> DayOfWeek(d) == 1
  {
    hide Ordinal;
    hide AddDays;
  }

  function SubDays(d: Day, n: nat): (r: Day)
    requires n < Ordinal(d)
    ensures Ordinal(r) == Ordinal(d) - n
    decreases n
  {
    if n == 0 then d
    else
      FirstDayNumber(d);
      SubDayInverts(d);
      SubDays(SubDay(d), n - 1)
  }

  lemma FirstDayNumber(d: Day)
    ensures Ordinal(d) > 1 <==> d != Date(1, 1, 1)
  {
    if d != Date(1, 1, 1) {
      EarlierIsSmaller(Date(1, 1, 1), d);
    }
  }

  // How far back the last Monday lies; day 1 is one.
  function DaysSinceMonday(n: nat): (days: nat)
    requires n >= 1
    ensures days < n && days < 7 && (n - days) % 7 == 1
  {
    (n % 7 + 6) % 7
  }

  // startOfWeek(Carbon::MONDAY)
  function StartOfWeek(d: Day): Day {
    SubDays(d, DaysSinceMonday(Ordinal(d)))
  }

  lemma StartOfWeekIsMonday(d: Day)
    ensures DayOfWeek(StartOfWeek(d)) == 1 && Ordinal(d) - 7 < Ordinal(StartOfWeek(d)) <= Ordinal(d)
  {
    hide Ordinal;
    hide SubDays;
  }

  // startOfMonth
  function StartOfMonth(d: Day): Day {
    d.(day := 1)
  }

  // endOfMonth
  function EndOfMonth(d: Day): Day {
    d.(day := DaysInMonth(d.year, d.month))
  }

  // addMonth lets a day past the end of the next month spill over into the month after.
  function AddMonth(d: Day): Day {
    var first := FirstOfNextMonth(d);
    if d.day <= DaysInMonth(first.year, first.month) then first.(day := d.day)
    else AddDays(EndOfMonth(first), d.day - DaysInMonth(first.year, first.month))
  }

  lemma AddMonthAdvances(d: Day)
    ensures Ordinal(AddMonth(d)) == Ordinal(FirstOfNextMonth(d)) + d.day - 1
  {
  }
}
