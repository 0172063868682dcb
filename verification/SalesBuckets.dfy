/**
 The sales chart: daily figures are grouped into weekly or monthly buckets by walking the
 calendar. The walk is proved to tile the charted range, with nothing lost or counted
 twice, exactly when its first bucket starts where weeks or months start.
 */
module SalesBuckets {
  import opened Calendar

  datatype Period = Weekly | Monthly

  datatype Stats = Stats(totalSales: nat, orderCount: nat) {
    function Plus(other: Stats): Stats {
      Stats(totalSales + other.totalSales, orderCount + other.orderCount)
    }
  }

  const NO_SALES := Stats(0, 0)

  datatype Label = DayLabel(day: Day) | MonthLabel(year: nat, month: nat)

  datatype Row = Row(date: Label, stats: Stats)

  datatype Span = Span(from: Day, to: Day)

  // `$dailyStats[$key] ?? zeroes`
  function StatsOn(daily: map<Day, Stats>, d: Day): Stats {
    if d in daily then daily[d] else NO_SALES
  }

  // Carbon's lte and gt compare year, then month, then day.
  predicate Lte(a: Day, b: Day) {
    a.year < b.year || (a.year == b.year && (a.month < b.month || (a.month == b.month && a.day <= b.day)))
  }

  lemma LteIsOrdinal(a: Day, b: Day)
    ensures Lte(a, b) <==> Ordinal(a) <= Ordinal(b)
  {
    if a != b {
      if Lte(a, b) { EarlierIsSmaller(a, b); } else { EarlierIsSmaller(b, a); }
    }
  }

  // The figures of the days from..to, day by day: what the chart should show.
  ghost function RangeSum(daily: map<Day, Stats>, from: Day, to: Day): Stats
    decreases Ordinal(to) + 1 - Ordinal(from)
  {
    if Ordinal(from) > Ordinal(to) then NO_SALES
    else
      AddDayCounts(from);
      StatsOn(daily, from).Plus(RangeSum(daily, AddDay(from), to))
  }

  lemma RangeSumUnfold(daily: map<Day, Stats>, from: Day, to: Day)
    ensures Ordinal(from) > Ordinal(to) ==> RangeSum(daily, from, to) == NO_SALES
    ensures Ordinal(from) <= Ordinal(to) ==>
              RangeSum(daily, from, to) == StatsOn(daily, from).Plus(RangeSum(daily, AddDay(from), to))
  {
    hide Ordinal;
    hide AddDay;
  }

  lemma {:induction false} RangeSumSplits(daily: map<Day, Stats>, from: Day, mid: Day, to: Day)
    requires Ordinal(from) <= Ordinal(mid) + 1 && Ordinal(mid) <= Ordinal(to)
    ensures RangeSum(daily, from, to) == RangeSum(daily, from, mid).Plus(RangeSum(daily, AddDay(mid), to))
    decreases Ordinal(mid) + 1 - Ordinal(from)
  {
    hide Ordinal;
    hide AddDay;
    hide RangeSum;
    AddDayCounts(mid);
    RangeSumUnfold(daily, from, mid);
    if Ordinal(from) > Ordinal(mid) {
      OrdinalInjective(from, AddDay(mid));
    } else {
      AddDayCounts(from);
      RangeSumUnfold(daily, from, to);
      RangeSumSplits(daily, AddDay(from), mid, to);
    }
  }

  // ----- the walk -----

  function NaturalEnd(d: Day, period: Period): Day {
    match period
    case Weekly => EndOfWeek(d)
    case Monthly => EndOfMonth(d)
  }

  function BucketEnd(d: Day, end: Day, period: Period): Day {
    if Lte(NaturalEnd(d, period), end) then NaturalEnd(d, period) else end
  }

  function Next(d: Day, period: Period): Day {
    match period
    case Weekly => AddDays(d, 7)
    case Monthly => AddMonth(d)
  }

  predicate Aligned(d: Day, period: Period) {
    match period
    case Weekly => DayOfWeek(d) == 1
    case Monthly => d.day == 1
  }

  function LabelOf(d: Day, period: Period): Label {
    match period
    case Weekly => DayLabel(d)
    case Monthly => MonthLabel(d.year, d.month)
  }

  // The label says the month of the day, or the first day shown of its week.
  ghost predicate Names(name: Label, d: Day, period: Period) {
    match period
    case Weekly => name.DayLabel? && Ordinal(name.day) <= Ordinal(d) <= Ordinal(EndOfWeek(name.day))
    case Monthly => name == MonthLabel(d.year, d.month)
  }

  // Every day of a bucket is named by the bucket's label.
  lemma LabelNamesDays(from: Day, d: Day, period: Period)
    requires Ordinal(from) <= Ordinal(d) <= Ordinal(NaturalEnd(from, period))
    ensures Names(LabelOf(from, period), d, period)
    ensures period.Weekly? ==> LabelOf(from, period) == DayLabel(from)
  {
    if period == Monthly {
      if d.year < from.year || (d.year == from.year && d.month < from.month) { EarlierIsSmaller(d, from); }
      var last := EndOfMonth(from);
      if last.year < d.year || (last.year == d.year && last.month < d.month) { EarlierIsSmaller(last, d); }
    }
  }

  lemma {:induction false} SpansStayInside(start: Day, end: Day, period: Period, i: nat)
    requires i < |Spans(start, end, period)|
    ensures var span := Spans(start, end, period)[i]; Ordinal(span.to) <= Ordinal(NaturalEnd(span.from, period))
    decreases i
  {
    hide Ordinal;
    hide BucketEnd;
    hide Next;
    hide NaturalEnd;
    hide Spans;
    SpansHead(start, end, period);
    SpansUnfold(start, end, period);
    if i > 0 {
      SpansStayInside(Next(start, period), end, period, i - 1);
    }
  }

  // The next bucket never starts inside this one, and starts right after it exactly
  // when this one is aligned.
  lemma NextStartsAfterNaturalEnd(d: Day, period: Period)
    ensures Ordinal(d) <= Ordinal(NaturalEnd(d, period)) < Ordinal(Next(d, period))
    ensures Ordinal(Next(d, period)) == Ordinal(NaturalEnd(d, period)) + 1 <==> Aligned(d, period)
    ensures Aligned(d, period) ==> Aligned(Next(d, period), period)
  {
    match period
    case Weekly => WeekAdvances(d);
    case Monthly => MonthAdvances(d);
  }

  lemma WeekAdvances(d: Day)
    ensures Ordinal(d) <= Ordinal(EndOfWeek(d)) < Ordinal(AddDays(d, 7))
    ensures Ordinal(AddDays(d, 7)) == Ordinal(EndOfWeek(d)) + 1 <==> DayOfWeek(d) == 1
    ensures DayOfWeek(AddDays(d, 7)) == DayOfWeek(d)
  {
    hide Ordinal;
    EndOfWeekIsSunday(d);
  }

  lemma MonthAdvances(d: Day)
    ensures Ordinal(d) <= Ordinal(EndOfMonth(d)) < Ordinal(AddMonth(d))
    ensures Ordinal(AddMonth(d)) == Ordinal(EndOfMonth(d)) + 1 <==> d.day == 1
    ensures d.day == 1 ==> AddMonth(d).day == 1
  {
    NextMonthOrdinal(d);
    AddMonthAdvances(d);
    assert Ordinal(EndOfMonth(d)) == Ordinal(d) + DaysInMonth(d.year, d.month) - d.day;
  }

  ghost function Spans(start: Day, end: Day, period: Period): seq<Span>
    decreases Ordinal(end) + 1 - Ordinal(start)
  {
    if Ordinal(start) > Ordinal(end) then []
    else
      NextStartsAfterNaturalEnd(start, period);
      [Span(start, BucketEnd(start, end, period))] + Spans(Next(start, period), end, period)
  }

  // Consecutive, disjoint, and covering exactly the days a..b.
  ghost predicate Tiles(spans: seq<Span>, a: Day, b: Day) {
    && (forall i :: 0 <= i < |spans| ==> Ordinal(spans[i].from) <= Ordinal(spans[i].to))
    && (forall i :: 0 < i < |spans| ==> Ordinal(spans[i].from) == Ordinal(spans[i - 1].to) + 1)
    && (if spans == [] then Ordinal(a) > Ordinal(b) else spans[0].from == a && spans[|spans| - 1].to == b)
  }

  lemma SpansUnfold(start: Day, end: Day, period: Period)
    requires Ordinal(start) <= Ordinal(end)
    ensures Spans(start, end, period) ==
            [Span(start, BucketEnd(start, end, period))] + Spans(Next(start, period), end, period)
    ensures Ordinal(start) <= Ordinal(BucketEnd(start, end, period)) <= Ordinal(end)
    ensures BucketEnd(start, end, period) ==
            if Ordinal(NaturalEnd(start, period)) <= Ordinal(end) then NaturalEnd(start, period) else end
  {
    NextStartsAfterNaturalEnd(start, period);
    LteIsOrdinal(NaturalEnd(start, period), end);
    hide Ordinal;
    hide Lte;
    hide NaturalEnd;
  }

  lemma SpansHead(start: Day, end: Day, period: Period)
    ensures Spans(start, end, period) == [] <==> Ordinal(start) > Ordinal(end)
    ensures Ordinal(start) <= Ordinal(end) ==> Spans(start, end, period)[0].from == start
  {
    hide Ordinal;
    hide BucketEnd;
    hide Next;
  }

  // An aligned walk tiles the range, whatever the month lengths and leap years met on the way.
  lemma {:induction false} AlignedSpansTile(start: Day, end: Day, period: Period)
    requires Aligned(start, period)
    ensures Tiles(Spans(start, end, period), start, end)
    decreases Ordinal(end) + 1 - Ordinal(start)
  {
    hide Ordinal;
    hide Spans;
    hide Next;
    hide NaturalEnd;
    hide BucketEnd;
    hide Aligned;
    SpansHead(start, end, period);
    if Ordinal(start) <= Ordinal(end) {
      var next := Next(start, period);
      NextStartsAfterNaturalEnd(start, period);
      SpansUnfold(start, end, period);
      AlignedSpansTile(next, end, period);
      SpansHead(next, end, period);
      var head := Span(start, BucketEnd(start, end, period));
      if Ordinal(head.to) == Ordinal(end) { OrdinalInjective(head.to, end); }
      ConsTiles(head, Spans(next, end, period), next, end);
    }
  }

  lemma ConsTiles(head: Span, rest: seq<Span>, next: Day, end: Day)
    requires Tiles(rest, next, end) && Ordinal(head.from) <= Ordinal(head.to) <= Ordinal(end)
    requires rest == [] ==> head.to == end
    requires rest != [] ==> Ordinal(next) == Ordinal(head.to) + 1
    ensures Tiles([head] + rest, head.from, end)
  {
    hide Ordinal;
    var spans := [head] + rest;
    forall i | 0 < i < |spans|
      ensures Ordinal(spans[i].from) == Ordinal(spans[i - 1].to) + 1 && Ordinal(spans[i].from) <= Ordinal(spans[i].to)
    {
      assert spans[i] == rest[i - 1];
      if i > 1 { assert spans[i - 1] == rest[i - 2]; }
    }
  }

  // From any start: nothing is lost exactly when the start is aligned or the whole
  // range lies inside the first bucket. Otherwise the chart silently drops days.
  lemma TilesIffAlignedOrOneBucket(start: Day, end: Day, period: Period)
    requires Ordinal(start) <= Ordinal(end)
    ensures Tiles(Spans(start, end, period), start, end) <==>
            Aligned(start, period) || Ordinal(end) <= Ordinal(NaturalEnd(start, period))
  {
    hide Ordinal;
    hide Spans;
    hide Next;
    hide NaturalEnd;
    hide BucketEnd;
    hide Aligned;
    var next := Next(start, period);
    NextStartsAfterNaturalEnd(start, period);
    SpansUnfold(start, end, period);
    SpansHead(next, end, period);
    if Aligned(start, period) { AlignedSpansTile(start, end, period); }
    var spans := Spans(start, end, period);
    if Ordinal(end) <= Ordinal(NaturalEnd(start, period)) {
      OneBucket(start, end, period);
    }
    if |spans| > 1 {
      assert spans[1] == Spans(next, end, period)[0];
    }
  }

  // Thursday 1 January 1970 to the Thursday after, by weeks: the days from the fifth to
  // the seventh are in no bucket.
  lemma ThursdayStartLosesDays(start: Day, end: Day)
    requires start == Date(1970, 1, 1) && end == Date(1970, 1, 8)
    ensures Spans(start, end, Weekly) == [Span(start, Date(1970, 1, 4)), Span(end, end)]
    ensures !Tiles(Spans(start, end, Weekly), start, end)
  {
    var sunday: Day := Date(1970, 1, 4);
    assert Ordinal(end) == Ordinal(start) + 7 && Ordinal(sunday) == Ordinal(start) + 3;
    EpochIsThursday(start);
    hide Ordinal, AddDays, Spans, Next, NaturalEnd;
    assert Ordinal(EndOfWeek(start)) == Ordinal(start) + 3;
    OrdinalInjective(EndOfWeek(start), sunday);
    OrdinalInjective(AddDays(start, 7), end);
    WeekWalk(start, end);
    WeekWalk(end, end);
    SpansHead(AddDays(end, 7), end, Weekly);
    TilesIffAlignedOrOneBucket(start, end, Weekly);
  }

  lemma WeekWalk(start: Day, end: Day)
    requires Ordinal(start) <= Ordinal(end)
    ensures Ordinal(AddDays(start, 7)) == Ordinal(start) + 7
    ensures Aligned(start, Weekly) <==> DayOfWeek(start) == 1
    ensures NaturalEnd(start, Weekly) == EndOfWeek(start)
    ensures Spans(start, end, Weekly) ==
            [Span(start, if Ordinal(EndOfWeek(start)) <= Ordinal(end) then EndOfWeek(start) else end)] +
            Spans(AddDays(start, 7), end, Weekly)
  {
    hide Ordinal, AddDays, Spans, EndOfWeek, DayOfWeek;
    SpansUnfold(start, end, Weekly);
  }

  lemma OneBucket(start: Day, end: Day, period: Period)
    requires Ordinal(start) <= Ordinal(end) <= Ordinal(NaturalEnd(start, period))
    ensures Tiles(Spans(start, end, period), start, end)
  {
    hide Ordinal;
    hide Next;
    hide NaturalEnd;
    hide Spans;
    NextStartsAfterNaturalEnd(start, period);
    SpansUnfold(start, end, period);
    SpansHead(Next(start, period), end, period);
    if Ordinal(end) == Ordinal(NaturalEnd(start, period)) { OrdinalInjective(end, NaturalEnd(start, period)); }
  }

  ghost function SpanSum(daily: map<Day, Stats>, spans: seq<Span>): Stats {
    if spans == [] then NO_SALES
    else RangeSum(daily, spans[0].from, spans[0].to).Plus(SpanSum(daily, spans[1..]))
  }

  // Buckets that tile a range add up to its days.
  lemma {:induction false} TilesAddUp(daily: map<Day, Stats>, spans: seq<Span>, a: Day, b: Day)
    requires Tiles(spans, a, b)
    ensures SpanSum(daily, spans) == RangeSum(daily, a, b)
    decreases |spans|
  {
    hide Ordinal;
    hide AddDay;
    hide RangeSum;
    if spans == [] {
      RangeSumUnfold(daily, a, b);
    } else {
      var head, rest := spans[0], spans[1..];
      var next := AddDay(head.to);
      AddDayCounts(head.to);
      TilesTail(spans, a, b);
      TilesAddUp(daily, rest, next, b);
      RangeSumSplits(daily, a, head.to, b);
    }
  }

  lemma TilesTail(spans: seq<Span>, a: Day, b: Day)
    requires Tiles(spans, a, b) && spans != []
    ensures Tiles(spans[1..], AddDay(spans[0].to), b) && Ordinal(spans[0].to) <= Ordinal(b)
  {
    hide Ordinal;
    hide AddDay;
    AddDayCounts(spans[0].to);
    if |spans| > 1 {
      OrdinalInjective(spans[1].from, AddDay(spans[0].to));
      SpansAscend(spans, a, b, 1);
    }
    var rest := spans[1..];
    forall i | 0 < i < |rest| ensures Ordinal(rest[i].from) == Ordinal(rest[i - 1].to) + 1 {
      assert rest[i] == spans[i + 1] && rest[i - 1] == spans[i];
    }
  }

  lemma {:induction false} SpansAscend(spans: seq<Span>, a: Day, b: Day, i: nat)
    requires Tiles(spans, a, b) && i < |spans|
    ensures Ordinal(spans[i].to) <= Ordinal(b)
    ensures forall j :: 0 <= j < i ==> Ordinal(spans[j].to) < Ordinal(spans[i].from)
  {
    hide Ordinal;
    SpansDescend(spans, a, b, i);
    if i > 0 { SpansAscend(spans, a, b, i - 1); }
  }

  lemma {:induction false} SpansDescend(spans: seq<Span>, a: Day, b: Day, i: nat)
    requires Tiles(spans, a, b) && i < |spans|
    ensures Ordinal(spans[i].to) <= Ordinal(b)
    decreases |spans| - i
  {
    hide Ordinal;
    if i + 1 < |spans| { SpansDescend(spans, a, b, i + 1); }
  }

  // ----- the loops -----

  method SumDailyStats(daily: map<Day, Stats>, start: Day, end: Day) returns (sum: Stats)
    ensures sum == RangeSum(daily, start, end)
  {
    hide Ordinal;
    hide Lte;
    hide AddDay;
    hide RangeSum;
    sum := NO_SALES;
    var current := start;
    LteIsOrdinal(current, end);
    while Lte(current, end)
      invariant Lte(current, end) <==> Ordinal(current) <= Ordinal(end)
      invariant RangeSum(daily, start, end) == sum.Plus(RangeSum(daily, current, end))
      decreases Ordinal(end) + 1 - Ordinal(current)
    {
      RangeSumUnfold(daily, current, end);
      var stats := StatsOn(daily, current);
      sum := Stats(sum.totalSales + stats.totalSales, sum.orderCount + stats.orderCount);
      AddDayCounts(current);
      current := AddDay(current);
      LteIsOrdinal(current, end);
    }
    RangeSumUnfold(daily, current, end);
  }

  // One row for every day of the range, in order.
  method FormatDaily(start: Day, end: Day, daily: map<Day, Stats>) returns (rows: seq<Row>)
    ensures |rows| == if Ordinal(start) <= Ordinal(end) then Ordinal(end) - Ordinal(start) + 1 else 0
    ensures forall i | 0 <= i < |rows| :: IsDailyRow(rows[i], Ordinal(start) + i, daily)
  {
    hide Ordinal;
    hide Lte;
    hide AddDay;
    rows := [];
    var current := start;
    LteIsOrdinal(current, end);
    while Lte(current, end)
      invariant Lte(current, end) <==> Ordinal(current) <= Ordinal(end)
      invariant |rows| == Ordinal(current) - Ordinal(start)
      invariant Ordinal(start) <= Ordinal(end) ==> Ordinal(current) <= Ordinal(end) + 1
      invariant Ordinal(start) > Ordinal(end) ==> current == start
      invariant forall i | 0 <= i < |rows| :: IsDailyRow(rows[i], Ordinal(start) + i, daily)
      decreases Ordinal(end) + 1 - Ordinal(current)
    {
      rows := rows + [Row(DayLabel(current), StatsOn(daily, current))];
      AddDayCounts(current);
      current := AddDay(current);
      LteIsOrdinal(current, end);
    }
  }

  ghost predicate IsDailyRow(row: Row, number: int, daily: map<Day, Stats>) {
    row.date.DayLabel? && Ordinal(row.date.day) == number && row.stats == StatsOn(daily, row.date.day)
  }

  ghost predicate IsIn(d: Day, span: Span) {
    Ordinal(span.from) <= Ordinal(d) <= Ordinal(span.to)
  }

  ghost predicate IsBucketRow(row: Row, span: Span, period: Period, daily: map<Day, Stats>) {
    row == Row(LabelOf(span.from, period), RangeSum(daily, span.from, span.to))
  }

  method FormatGrouped(start: Day, end: Day, period: Period, daily: map<Day, Stats>) returns (rows: seq<Row>)
    ensures |rows| == |Spans(start, end, period)|
    ensures forall i | 0 <= i < |rows| :: IsBucketRow(rows[i], Spans(start, end, period)[i], period, daily)
  {
    hide Ordinal;
    hide Lte;
    hide BucketEnd;
    hide NaturalEnd;
    hide Next;
    hide Aligned;
    hide Spans;
    hide RangeSum;
    rows := [];
    var current := start;
    ghost var spans := Spans(start, end, period);
    LteIsOrdinal(current, end);
    while Lte(current, end)
      invariant Lte(current, end) <==> Ordinal(current) <= Ordinal(end)
      invariant |rows| <= |spans| && spans[|rows|..] == Spans(current, end, period)
      invariant forall i | 0 <= i < |rows| :: IsBucketRow(rows[i], spans[i], period, daily)
      decreases Ordinal(end) + 1 - Ordinal(current)
    {
      SpansUnfold(current, end, period);
      NextStartsAfterNaturalEnd(current, period);
      var stats := SumDailyStats(daily, current, BucketEnd(current, end, period));
      assert spans[|rows|] == spans[|rows|..][0];
      assert spans[|rows| + 1..] == spans[|rows|..][1..];
      rows := rows + [Row(LabelOf(current, period), stats)];
      current := Next(current, period);
      LteIsOrdinal(current, end);
    }
    SpansHead(current, end, period);
  }

  function RowTotal(rows: seq<Row>): Stats {
    if rows == [] then NO_SALES else rows[0].stats.Plus(RowTotal(rows[1..]))
  }

  lemma {:induction false} RowsAreSpans(rows: seq<Row>, spans: seq<Span>, period: Period, daily: map<Day, Stats>)
    requires |rows| == |spans| && forall i | 0 <= i < |rows| :: IsBucketRow(rows[i], spans[i], period, daily)
    ensures RowTotal(rows) == SpanSum(daily, spans)
  {
    if rows != [] { RowsAreSpans(rows[1..], spans[1..], period, daily); }
  }

  function FetchStart(start: Day, period: Period): Day {
    match period
    case Weekly => StartOfWeek(start)
    case Monthly => StartOfMonth(start)
  }

  // The fetch starts on the Monday of the week, or the first of the month, that the asked
  // start lies in.
  lemma FetchStartIsAligned(start: Day, period: Period)
    ensures Aligned(FetchStart(start, period), period)
    ensures Ordinal(FetchStart(start, period)) <= Ordinal(start)
    ensures Names(LabelOf(FetchStart(start, period), period), start, period)
    ensures period.Weekly? ==> DayOfWeek(FetchStart(start, period)) == 1
    ensures period.Monthly? ==> FetchStart(start, period) == Date(start.year, start.month, 1)
  {
    if period == Weekly {
      StartOfWeekIsMonday(start);
      EndOfWeekIsSunday(StartOfWeek(start));
      assert Ordinal(EndOfWeek(StartOfWeek(start))) == Ordinal(StartOfWeek(start)) + 6;
    }
  }

  // Two buckets of one chart never share a label.
  lemma LabelsDiffer(start: Day, end: Day, period: Period, i: nat, j: nat)
    requires Aligned(start, period) && i < j < |Spans(start, end, period)|
    ensures LabelOf(Spans(start, end, period)[i].from, period) != LabelOf(Spans(start, end, period)[j].from, period)
  {
    hide Ordinal;
    hide Spans;
    var spans := Spans(start, end, period);
    AlignedSpansTile(start, end, period);
    SpansAscend(spans, start, end, j);
    SpansAreAligned(start, end, period, i);
    SpansAreAligned(start, end, period, j);
    assert Ordinal(spans[i].from) <= Ordinal(spans[i].to) < Ordinal(spans[j].from);
  }

  lemma {:induction false} SpansAreAligned(start: Day, end: Day, period: Period, i: nat)
    requires Aligned(start, period) && i < |Spans(start, end, period)|
    ensures Aligned(Spans(start, end, period)[i].from, period)
    decreases i
  {
    hide Ordinal;
    hide BucketEnd;
    hide Next;
    hide Aligned;
    hide NaturalEnd;
    hide Spans;
    SpansHead(start, end, period);
    SpansUnfold(start, end, period);
    NextStartsAfterNaturalEnd(start, period);
    if i > 0 {
      SpansAreAligned(Next(start, period), end, period, i - 1);
    }
  }

  // The days from the fetch start to the end fall into its buckets, each into one.
  lemma FetchedSpansTile(start: Day, end: Day, period: Period)
    ensures Tiles(Spans(FetchStart(start, period), end, period), FetchStart(start, period), end)
  {
    FetchStartIsAligned(start, period);
    AlignedSpansTile(FetchStart(start, period), end, period);
  }

  // The chart as the dashboard builds it: one row for each bucket from the beginning of
  // the first week or month, together the figures of all their days.
  method BuildSalesData(period: Period, start: Day, end: Day, daily: map<Day, Stats>) returns (rows: seq<Row>)
    ensures |rows| == |Spans(FetchStart(start, period), end, period)|
    ensures forall i | 0 <= i < |rows| ::
              IsBucketRow(rows[i], Spans(FetchStart(start, period), end, period)[i], period, daily)
    ensures forall i, d: Day | 0 <= i < |rows| && IsIn(d, Spans(FetchStart(start, period), end, period)[i]) ::
              Names(rows[i].date, d, period)
    ensures RowTotal(rows) == RangeSum(daily, FetchStart(start, period), end)
    ensures forall i, j | 0 <= i < j < |rows| :: rows[i].date != rows[j].date
  {
    var fetchStart := FetchStart(start, period);
    ghost var spans := Spans(fetchStart, end, period);
    rows := FormatGrouped(fetchStart, end, period, daily);
    FetchStartIsAligned(start, period);
    FetchedSpansTile(start, end, period);
    TilesAddUp(daily, spans, fetchStart, end);
    RowsAreSpans(rows, spans, period, daily);
    forall i, d: Day | 0 <= i < |rows| && IsIn(d, spans[i]) ensures Names(rows[i].date, d, period) {
      SpansStayInside(fetchStart, end, period, i);
      LabelNamesDays(spans[i].from, d, period);
      assert IsBucketRow(rows[i], spans[i], period, daily);
    }
    forall i, j | 0 <= i < j < |rows| ensures rows[i].date != rows[j].date {
      LabelsDiffer(fetchStart, end, period, i, j);
      assert IsBucketRow(rows[i], spans[i], period, daily) && IsBucketRow(rows[j], spans[j], period, daily);
    }
  }
}
