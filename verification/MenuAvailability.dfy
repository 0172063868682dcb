/**
 The public menu is served from a cache. Availability depends on the weekday and the time
 of the request, so the cached flag is recomputed, but only for the items that need it and
 only when there is one. The shortcut is proved to give every item the flag the live
 check gives.
 */
module MenuAvailability {
  import opened Common

  const ALL_DAYS: bv8 := 127

  // `available_days` is an unsigned byte; the times are TIME columns printed as text.
  datatype MenuItem = MenuItem(
    id: nat, isActive: bool, isSoldOut: bool, availableDays: bv8,
    availableFrom: Option<string>, availableUntil: Option<string>)

  // The clock of one request: 0 is Sunday, `time` is formatted H:i:s.
  datatype Moment = Moment(dayOfWeek: nat, time: string)

  predicate IsMoment(now: Moment) {
    now.dayOfWeek < 7
  }

  // ----- times as text -----

  // `<` on two strings that are not both numeric.
  predicate TextLess(a: string, b: string) {
    b != [] && (a == [] || a[0] < b[0] || (a[0] == b[0] && TextLess(a[1..], b[1..])))
  }

  function TwoDigits(n: nat): string
    requires n < 100
  {
    ['0' + (n / 10) as char, '0' + (n % 10) as char]
  }

  function TimeText(h: nat, m: nat, s: nat): string
    requires h < 24 && m < 60 && s < 60
  {
    TwoDigits(h) + (":" + (TwoDigits(m) + (":" + TwoDigits(s))))
  }

  function ReadTwo(t: string, i: nat): int
    requires i + 1 < |t|
  {
    10 * (t[i] as int - 48) + (t[i + 1] as int - 48)
  }

  // The text reads back as the time of day, two digits each with colons between.
  lemma TimeTextReadsBack(h: nat, m: nat, s: nat)
    requires h < 24 && m < 60 && s < 60
    ensures var t := TimeText(h, m, s);
            && |t| == 8 && t[2] == t[5] == ':'
            && (forall i :: i in {0, 1, 3, 4, 6, 7} ==> '0' <= t[i] <= '9')
            && ReadTwo(t, 0) == h && ReadTwo(t, 3) == m && ReadTwo(t, 6) == s
  {
    var t := TimeText(h, m, s);
    assert t[0] == TwoDigits(h)[0] && t[1] == TwoDigits(h)[1];
    assert t[3] == TwoDigits(m)[0] && t[4] == TwoDigits(m)[1];
    assert t[6] == TwoDigits(s)[0] && t[7] == TwoDigits(s)[1];
  }

  lemma TextLessTwoDigits(a: nat, b: nat, x: string, y: string)
    requires a < 100 && b < 100
    ensures TextLess(TwoDigits(a) + x, TwoDigits(b) + y) <==> a < b || (a == b && TextLess(x, y))
  {
    var s, t := TwoDigits(a) + x, TwoDigits(b) + y;
    assert s[1..][1..] == x && t[1..][1..] == y;
    assert s[1..][0] == s[1] && t[1..][0] == t[1];
    assert s[0] == '0' + (a / 10) as char && t[0] == '0' + (b / 10) as char;
  }

  lemma TextLessColon(x: string, y: string)
    ensures TextLess(":" + x, ":" + y) <==> TextLess(x, y)
  {
    assert (":" + x)[1..] == x && (":" + y)[1..] == y;
  }

  // Comparing the texts is comparing the times of day.
  lemma TextOrderIsTimeOrder(h: nat, m: nat, s: nat, h': nat, m': nat, s': nat)
    requires h < 24 && m < 60 && s < 60 && h' < 24 && m' < 60 && s' < 60
    ensures TextLess(TimeText(h, m, s), TimeText(h', m', s')) <==>
            h * 3600 + m * 60 + s < h' * 3600 + m' * 60 + s'
  {
    TextLessTwoDigits(s, s', "", "");
    assert TwoDigits(s) + "" == TwoDigits(s) && TwoDigits(s') + "" == TwoDigits(s');
    hide TextLess;
    hide TwoDigits;
    TextLessColon(TwoDigits(s), TwoDigits(s'));
    TextLessTwoDigits(m, m', ":" + TwoDigits(s), ":" + TwoDigits(s'));
    TextLessColon(TwoDigits(m) + (":" + TwoDigits(s)), TwoDigits(m') + (":" + TwoDigits(s')));
    TextLessTwoDigits(h, h', ":" + (TwoDigits(m) + (":" + TwoDigits(s))), ":" + (TwoDigits(m') + (":" + TwoDigits(s'))));
    NothingLessThanEmpty();
  }

  lemma NothingLessThanEmpty()
    ensures !TextLess("", "")
  {
  }

  // ----- the live check -----

  predicate IsAvailableOn(item: MenuItem, dayOfWeek: nat)
    requires dayOfWeek < 7
  {
    item.availableDays & (1 << dayOfWeek) != 0
  }

  // A string PHP takes for true.
  predicate Truthy(s: Option<string>) {
    s.Some? && s.value != "" && s.value != "0"
  }

  predicate IsAvailableNow(item: MenuItem, now: Moment)
    requires IsMoment(now)
  {
    if !item.isActive || item.isSoldOut then false
    else if !IsAvailableOn(item, now.dayOfWeek) then false
    else if Truthy(item.availableFrom) && Truthy(item.availableUntil) then
      !(TextLess(now.time, item.availableFrom.value) || TextLess(item.availableUntil.value, now.time))
    else true
  }

  // SUNDAY to SATURDAY
  const DAY_FLAGS: seq<bv8> := [1, 2, 4, 8, 16, 32, 64]

  // The days are those whose flags are set, and what is sold on all days is sold on each.
  lemma DayMeaning(item: MenuItem, day: nat)
    requires day < 7
    ensures IsAvailableOn(item, day) <==> item.availableDays & DAY_FLAGS[day] == DAY_FLAGS[day]
    ensures item.availableDays == 127 ==> IsAvailableOn(item, day)
  {
    match day
    case 0 => case 1 => case 2 => case 3 => case 4 => case 5 => case 6 =>
  }

  // Without both ends of a window an item is available all day, on its days, unless it is
  // withdrawn or sold out.
  lemma NoWindowMeaning(item: MenuItem, now: Moment)
    requires IsMoment(now)
    requires item.availableFrom in {None, Some(""), Some("0")} || item.availableUntil in {None, Some(""), Some("0")}
    ensures IsAvailableNow(item, now) <==>
            item.isActive && !item.isSoldOut && item.availableDays & DAY_FLAGS[now.dayOfWeek] == DAY_FLAGS[now.dayOfWeek]
  {
    DayMeaning(item, now.dayOfWeek);
    hide IsAvailableOn;
  }

  // What the live check means for a serving window: open from the first second through
  // the last on the chosen days, and never when the window would span midnight.
  lemma WindowMeaning(item: MenuItem, day: nat, h: nat, m: nat, s: nat, h0: nat, m0: nat, s0: nat, h1: nat, m1: nat, s1: nat)
    requires day < 7 && h < 24 && m < 60 && s < 60
    requires h0 < 24 && m0 < 60 && s0 < 60 && h1 < 24 && m1 < 60 && s1 < 60
    requires item.availableFrom == Some(TimeText(h0, m0, s0)) && item.availableUntil == Some(TimeText(h1, m1, s1))
    ensures IsAvailableNow(item, Moment(day, TimeText(h, m, s))) <==>
            && item.isActive && !item.isSoldOut && item.availableDays & DAY_FLAGS[day] == DAY_FLAGS[day]
            && h0 * 3600 + m0 * 60 + s0 <= h * 3600 + m * 60 + s <= h1 * 3600 + m1 * 60 + s1
    ensures h1 * 3600 + m1 * 60 + s1 < h0 * 3600 + m0 * 60 + s0 ==>
              !IsAvailableNow(item, Moment(day, TimeText(h, m, s)))
  {
    DayMeaning(item, day);
    TextOrderIsTimeOrder(h, m, s, h0, m0, s0);
    TextOrderIsTimeOrder(h1, m1, s1, h, m, s);
    assert |TimeText(h0, m0, s0)| == 8 && |TimeText(h1, m1, s1)| == 8;
    hide TimeText;
    hide TextLess;
    hide IsAvailableOn;
  }

  // ----- the cached menu -----

  datatype Entry = Entry(
    id: nat, isSoldOut: bool, isAvailable: bool, needsRecalc: bool,
    availableFrom: Option<string>, availableUntil: Option<string>, availableDays: bv8)

  datatype MenuData = MenuData(categories: seq<seq<Entry>>, hasRestrictedItems: bool)

  // An entry with the internal flag stripped.
  datatype PublicItem = PublicItem(id: nat, isSoldOut: bool, isAvailable: bool)

  function FormatMenuItem(item: MenuItem): Entry {
    var needsRecalc := item.availableDays != ALL_DAYS || item.availableFrom.Some? || item.availableUntil.Some?;
    Entry(item.id, item.isSoldOut, !item.isSoldOut, needsRecalc,
          item.availableFrom, item.availableUntil, item.availableDays)
  }

  predicate IsWithinTimeRange(e: Entry, time: string) {
    if Truthy(e.availableFrom) && Truthy(e.availableUntil) then
      !TextLess(time, e.availableFrom.value) && !TextLess(e.availableUntil.value, time)
    else true
  }

  function Recalculated(e: Entry, now: Moment): Entry
    requires IsMoment(now)
  {
    if !e.needsRecalc then e
    else
      e.(isAvailable := !e.isSoldOut && e.availableDays & (1 << now.dayOfWeek) != 0 && IsWithinTimeRange(e, now.time))
  }

  // An item that needs no recomputation is on sale at every moment or at none, and a
  // recomputed one carries the live verdict.
  lemma EntryIsLive(item: MenuItem, now: Moment)
    requires item.isActive && IsMoment(now)
    ensures !FormatMenuItem(item).needsRecalc ==> FormatMenuItem(item).isAvailable == IsAvailableNow(item, now)
    ensures Recalculated(FormatMenuItem(item), now).isAvailable == IsAvailableNow(item, now)
    ensures Recalculated(FormatMenuItem(item), now).id == item.id
    ensures Recalculated(FormatMenuItem(item), now).isSoldOut == item.isSoldOut
  {
    EveryDayIsSet(now.dayOfWeek);
  }

  lemma EveryDayIsSet(d: nat)
    requires d < 7
    ensures ALL_DAYS & (1 << d) != 0
  {
    if d == 0 { assert ALL_DAYS & (1 << 0) != 0; }
    else if d == 1 { assert ALL_DAYS & (1 << 1) != 0; }
    else if d == 2 { assert ALL_DAYS & (1 << 2) != 0; }
    else if d == 3 { assert ALL_DAYS & (1 << 3) != 0; }
    else if d == 4 { assert ALL_DAYS & (1 << 4) != 0; }
    else if d == 5 { assert ALL_DAYS & (1 << 5) != 0; }
    else { assert ALL_DAYS & (1 << 6) != 0; }
  }

  // The rows of one category the menu query returns.
  function ActiveItems(items: seq<MenuItem>): (active: seq<MenuItem>)
    ensures forall item :: item in active <==> item in items && item.isActive
  {
    if items == [] then []
    else (if items[0].isActive then [items[0]] else []) + ActiveItems(items[1..])
  }

  function FormatCategory(items: seq<MenuItem>): seq<Entry> {
    var active := ActiveItems(items);
    seq(|active|, j requires 0 <= j < |active| => FormatMenuItem(active[j]))
  }

  ghost predicate IsMenuData(data: MenuData, categories: seq<seq<MenuItem>>) {
    && |data.categories| == |categories|
    && (forall i | 0 <= i < |categories| :: data.categories[i] == FormatCategory(categories[i]))
    && (data.hasRestrictedItems <==>
        exists i, j :: 0 <= i < |data.categories| && 0 <= j < |data.categories[i]| && data.categories[i][j].needsRecalc)
  }

  method BuildMenuData(categories: seq<seq<MenuItem>>) returns (data: MenuData)
    ensures IsMenuData(data, categories)
  {
    var formatted: seq<seq<Entry>> :=
      seq(|categories|, i requires 0 <= i < |categories| => FormatCategory(categories[i]));
    var hasRestrictedItems := false;
    for i := 0 to |formatted|
      invariant !hasRestrictedItems
      invariant forall c, k | 0 <= c < i && 0 <= k < |formatted[c]| :: !formatted[c][k].needsRecalc
    {
      for j := 0 to |formatted[i]|
        invariant !hasRestrictedItems
        invariant forall k | 0 <= k < j :: !formatted[i][k].needsRecalc
      {
        if formatted[i][j].needsRecalc {
          hasRestrictedItems := true;
          break break;
        }
      }
    }
    data := MenuData(formatted, hasRestrictedItems);
  }

  ghost predicate Recomputed(before: seq<Entry>, after: seq<Entry>, now: Moment)
    requires IsMoment(now)
  {
    |after| == |before| && forall k | 0 <= k < |before| :: after[k] == Recalculated(before[k], now)
  }

  method RecalculateAvailability(cached: MenuData, now: Moment) returns (data: MenuData)
    requires IsMoment(now)
    ensures data.hasRestrictedItems == cached.hasRestrictedItems && |data.categories| == |cached.categories|
    ensures forall i | 0 <= i < |cached.categories| :: Recomputed(cached.categories[i], data.categories[i], now)
  {
    data := cached;
    for i := 0 to |cached.categories|
      invariant data.hasRestrictedItems == cached.hasRestrictedItems && |data.categories| == |cached.categories|
      invariant forall c | 0 <= c < i :: Recomputed(cached.categories[c], data.categories[c], now)
      invariant forall c | i <= c < |cached.categories| :: data.categories[c] == cached.categories[c]
    {
      var items := cached.categories[i];
      for j := 0 to |items|
        invariant data.hasRestrictedItems == cached.hasRestrictedItems && |data.categories| == |cached.categories|
        invariant forall c | 0 <= c < i :: Recomputed(cached.categories[c], data.categories[c], now)
        invariant forall c | i < c < |cached.categories| :: data.categories[c] == cached.categories[c]
        invariant |data.categories[i]| == |items|
        invariant forall k | 0 <= k < j :: data.categories[i][k] == Recalculated(items[k], now)
        invariant forall k | j <= k < |items| :: data.categories[i][k] == items[k]
      {
        var e := items[j];
        if !e.needsRecalc { continue; }
        var isAvailable := !e.isSoldOut && e.availableDays & (1 << now.dayOfWeek) != 0 && IsWithinTimeRange(e, now.time);
        var row := data.categories[i][j := data.categories[i][j].(isAvailable := isAvailable)];
        data := data.(categories := data.categories[i := row]);
      }
    }
  }

  function Strip(e: Entry): PublicItem {
    PublicItem(e.id, e.isSoldOut, e.isAvailable)
  }

  method StripInternalFlags(data: MenuData) returns (menu: seq<seq<PublicItem>>)
    ensures |menu| == |data.categories|
    ensures forall i | 0 <= i < |menu| ::
              |menu[i]| == |data.categories[i]| &&
              forall j | 0 <= j < |menu[i]| :: menu[i][j] == Strip(data.categories[i][j])
  {
    menu := [];
    for i := 0 to |data.categories|
      invariant |menu| == i
      invariant forall c | 0 <= c < i ::
                  |menu[c]| == |data.categories[c]| &&
                  forall j | 0 <= j < |menu[c]| :: menu[c][j] == Strip(data.categories[c][j])
    {
      var items := [];
      for j := 0 to |data.categories[i]|
        invariant |items| == j && forall k | 0 <= k < j :: items[k] == Strip(data.categories[i][k])
      {
        items := items + [Strip(data.categories[i][j])];
      }
      menu := menu + [items];
    }
  }

  // The menu the live check would give: every active item, in order, with its verdict.
  ghost predicate IsLiveMenu(menu: seq<seq<PublicItem>>, categories: seq<seq<MenuItem>>, now: Moment)
    requires IsMoment(now)
  {
    && |menu| == |categories|
    && forall i | 0 <= i < |menu| :: IsLiveCategory(menu[i], ActiveItems(categories[i]), now)
  }

  ghost predicate IsLiveCategory(shown: seq<PublicItem>, items: seq<MenuItem>, now: Moment)
    requires IsMoment(now)
  {
    && |shown| == |items|
    && forall j | 0 <= j < |shown| :: shown[j] == PublicItem(items[j].id, items[j].isSoldOut, IsAvailableNow(items[j], now))
  }

  class PublicMenuService {
    var cache: Option<MenuData>
    // The rows the cached menu was built from.
    ghost var snapshot: seq<seq<MenuItem>>

    ghost predicate Valid()
      reads this
    {
      cache.Some? ==> IsMenuData(cache.value, snapshot)
    }

    constructor ()
      ensures Valid() && cache.None?
    {
      cache, snapshot := None, [];
    }

    // `expired`: the cache entry has outlived its hour. The menu served is the live one
    // for the rows it was built from: the current rows on a miss, and on a hit the rows
    // as they were, which are the current ones until somebody changes them.
    method GetMenu(categories: seq<seq<MenuItem>>, now: Moment, expired: bool) returns (menu: seq<seq<PublicItem>>)
      requires Valid() && IsMoment(now)
      modifies this
      ensures Valid() && cache.Some?
      ensures snapshot == if old(cache).None? || expired then categories else old(snapshot)
      ensures IsLiveMenu(menu, snapshot, now)
    {
      if cache.None? || expired {
        var data := BuildMenuData(categories);
        cache, snapshot := Some(data), categories;
      }
      var data := cache.value;
      if data.hasRestrictedItems {
        data := RecalculateAvailability(data, now);
      }
      menu := StripInternalFlags(data);
      forall i | 0 <= i < |menu| ensures IsLiveCategory(menu[i], ActiveItems(snapshot[i]), now) {
        var items, entries := ActiveItems(snapshot[i]), cache.value.categories[i];
        forall j | 0 <= j < |items|
          ensures menu[i][j] == PublicItem(items[j].id, items[j].isSoldOut, IsAvailableNow(items[j], now))
        {
          assert items[j] in items && entries[j] == FormatMenuItem(items[j]);
          EntryIsLive(items[j], now);
          hide IsAvailableNow, Recalculated;
        }
      }
    }

    method InvalidateCache()
      requires Valid()
      modifies this
      ensures Valid() && cache.None?
    {
      cache := None;
    }
  }
}
