/**
 Ordering again from a past order: every past item is checked against today's menu, its
 options are matched with the ones still offered, and the cart writer, which locks the
 menu item and validates once more, has the last word. For one view of the menu the
 cheap checks are proved to agree with the cart writer's, item by item.
 */
module Reorder {
  import opened Common
  import opened MenuAvailability

  datatype Choice = Choice(id: nat, isActive: bool)

  datatype OptionGroup = OptionGroup(required: bool, minSelect: int, maxSelect: int, options: seq<Choice>)

  datatype Dish = Dish(item: MenuItem, groups: seq<OptionGroup>)

  type Menu = map<nat, Dish>

  // A past order item; the ids are null once the menu item or option was deleted.
  datatype PastItem = PastItem(menuItemId: Option<nat>, quantity: nat, optionIds: seq<Option<nat>>)

  datatype Line = Line(menuItemId: nat, quantity: nat, optionIds: seq<nat>)

  datatype SkipReason = MenuItemDeleted | Inactive | SoldOut | OutsideTimeWindow | OptionConstraintsChanged

  // What the cart writer answers; `Broken` is any exception reorder does not catch.
  datatype AddResult = LineAdded | ItemNotAvailable | InvalidOptionSelection | Broken

  datatype Fate = Added | Skipped(reason: SkipReason) | Crashed

  // An option is one row: wherever its id shows up it is active or it is not.
  ghost predicate OneRowPerOption(groups: seq<OptionGroup>) {
    forall g, h, a, b | g in groups && h in groups && a in g.options && b in h.options && a.id == b.id ::
      a.isActive == b.isActive
  }

  // ----- id lists -----

  // array_intersect: the ids of the first list that occur in the second, duplicates kept.
  function Intersect(ids: seq<nat>, allowed: seq<nat>): seq<nat> {
    if ids == [] then []
    else (if ids[0] in allowed then [ids[0]] else []) + Intersect(ids[1..], allowed)
  }

  // array_diff
  function Diff(ids: seq<nat>, excluded: seq<nat>): seq<nat> {
    if ids == [] then []
    else (if ids[0] in excluded then [] else [ids[0]]) + Diff(ids[1..], excluded)
  }

  lemma {:induction false} IntersectMeaning(ids: seq<nat>, allowed: seq<nat>)
    ensures forall id :: id in Intersect(ids, allowed) <==> id in ids && id in allowed
  {
    if ids != [] { IntersectMeaning(ids[1..], allowed); }
  }

  lemma {:induction false} DiffEmpty(ids: seq<nat>, excluded: seq<nat>)
    ensures Diff(ids, excluded) == [] <==> forall id :: id in ids ==> id in excluded
  {
    if ids != [] {
      DiffEmpty(ids[1..], excluded);
      assert ids == [ids[0]] + ids[1..];
    }
  }

  function Ids(options: seq<Choice>): seq<nat> {
    if options == [] then [] else [options[0].id] + Ids(options[1..])
  }

  function ActiveOnly(options: seq<Choice>): seq<Choice> {
    if options == [] then []
    else (if options[0].isActive then [options[0]] else []) + ActiveOnly(options[1..])
  }

  // The ids of a list of options are those of its members, one way and the other.
  lemma {:induction false} IdsContain(options: seq<Choice>, c: Choice)
    requires c in options
    ensures c.id in Ids(options)
    ensures c.isActive ==> c.id in Ids(ActiveOnly(options))
  {
    var rest := ActiveOnly(options[1..]);
    assert ([options[0]] + rest)[1..] == rest && [] + rest == rest;
    if c != options[0] { IdsContain(options[1..], c); }
  }

  lemma {:induction false} IdsComeFrom(options: seq<Choice>, id: nat) returns (c: Choice)
    requires id in Ids(options)
    ensures c in options && c.id == id
  {
    if options[0].id == id { c := options[0]; } else { c := IdsComeFrom(options[1..], id); }
  }

  lemma {:induction false} ActiveOnlyMeaning(options: seq<Choice>, c: Choice)
    ensures c in ActiveOnly(options) <==> c in options && c.isActive
  {
    if options != [] { ActiveOnlyMeaning(options[1..], c); }
  }

  function AllIds(groups: seq<OptionGroup>): seq<nat> {
    if groups == [] then [] else Ids(groups[0].options) + AllIds(groups[1..])
  }

  function ActiveIds(groups: seq<OptionGroup>): seq<nat> {
    if groups == [] then [] else Ids(ActiveOnly(groups[0].options)) + ActiveIds(groups[1..])
  }

  lemma {:induction false} AllIdsContain(groups: seq<OptionGroup>, c: Choice, g: OptionGroup)
    requires g in groups && c in g.options
    ensures c.id in AllIds(groups)
  {
    if g == groups[0] { IdsContain(g.options, c); } else { AllIdsContain(groups[1..], c, g); }
  }

  lemma {:induction false} ActiveIdsComeFrom(groups: seq<OptionGroup>, id: nat) returns (g: OptionGroup, c: Choice)
    requires id in ActiveIds(groups)
    ensures g in groups && c in g.options && c.id == id && c.isActive
  {
    if id in Ids(ActiveOnly(groups[0].options)) {
      g := groups[0];
      c := IdsComeFrom(ActiveOnly(g.options), id);
      ActiveOnlyMeaning(g.options, c);
    } else {
      g, c := ActiveIdsComeFrom(groups[1..], id);
    }
  }

  // ----- the authoritative validator -----

  predicate ValidateOptionSelection(g: OptionGroup, selected: seq<nat>) {
    if g.required && |selected| == 0 then false
    else if |selected| < g.minSelect then false
    else if |selected| > g.maxSelect then false
    else if |selected| > 0 then Diff(selected, Ids(ActiveOnly(g.options))) == []
    else true
  }

  predicate ValidateOptionsForMenuItem(dish: Dish, optionIds: seq<nat>) {
    && (forall g :: g in dish.groups ==> ValidateOptionSelection(g, Intersect(optionIds, Ids(g.options))))
    && Diff(optionIds, AllIds(dish.groups)) == []
  }

  // ----- what the validator accepts -----

  ghost predicate Offers(g: OptionGroup, id: nat) {
    exists c :: c in g.options && c.id == id
  }

  ghost predicate OffersActive(g: OptionGroup, id: nat) {
    exists c :: c in g.options && c.id == id && c.isActive
  }

  // How many of the ids, repetitions counted, the group offers.
  ghost function NumberIn(ids: seq<nat>, g: OptionGroup): nat {
    if ids == [] then 0 else (if Offers(g, ids[0]) then 1 else 0) + NumberIn(ids[1..], g)
  }

  // Every option is one of the dish, active wherever the dish offers it, and every group
  // gets the number it asks for.
  ghost predicate IsOrderable(dish: Dish, ids: seq<nat>) {
    && (forall id :: id in ids ==> exists g :: g in dish.groups && Offers(g, id))
    && (forall g, id :: g in dish.groups && id in ids && Offers(g, id) ==> OffersActive(g, id))
    && (forall g :: g in dish.groups ==>
          g.minSelect <= NumberIn(ids, g) <= g.maxSelect && (g.required ==> NumberIn(ids, g) > 0))
  }

  lemma IdsMeaning(options: seq<Choice>, id: nat)
    ensures id in Ids(options) <==> exists c :: c in options && c.id == id
    ensures id in Ids(ActiveOnly(options)) <==> exists c :: c in options && c.id == id && c.isActive
  {
    if id in Ids(options) { var c := IdsComeFrom(options, id); }
    if id in Ids(ActiveOnly(options)) {
      var c := IdsComeFrom(ActiveOnly(options), id);
      ActiveOnlyMeaning(options, c);
    }
    forall c | c in options && c.id == id ensures id in Ids(options) && (c.isActive ==> id in Ids(ActiveOnly(options))) {
      IdsContain(options, c);
    }
    hide Ids, ActiveOnly;
  }

  lemma {:induction false} AllIdsComeFrom(groups: seq<OptionGroup>, id: nat) returns (g: OptionGroup)
    requires id in AllIds(groups)
    ensures g in groups && Offers(g, id)
  {
    if id in Ids(groups[0].options) {
      g := groups[0];
      IdsMeaning(g.options, id);
    } else {
      g := AllIdsComeFrom(groups[1..], id);
    }
  }

  lemma {:induction false} IntersectCounts(ids: seq<nat>, g: OptionGroup)
    ensures |Intersect(ids, Ids(g.options))| == NumberIn(ids, g)
  {
    if ids != [] {
      IntersectCounts(ids[1..], g);
      IdsMeaning(g.options, ids[0]);
      hide Ids;
    }
  }

  lemma GroupAccepts(g: OptionGroup, ids: seq<nat>)
    ensures ValidateOptionSelection(g, Intersect(ids, Ids(g.options))) <==>
            && g.minSelect <= NumberIn(ids, g) <= g.maxSelect && (g.required ==> NumberIn(ids, g) > 0)
            && forall id :: id in ids && Offers(g, id) ==> OffersActive(g, id)
  {
    var selected := Intersect(ids, Ids(g.options));
    IntersectCounts(ids, g);
    IntersectMeaning(ids, Ids(g.options));
    DiffEmpty(selected, Ids(ActiveOnly(g.options)));
    forall id { IdsMeaning(g.options, id); }
    assert selected == [] ==> forall id :: id in ids && Offers(g, id) ==> id in selected;
    hide Ids, ActiveOnly, Intersect, Diff, NumberIn;
  }

  // The validator, with its intersections and differences, accepts exactly that.
  lemma ValidatorMeaning(dish: Dish, ids: seq<nat>)
    ensures ValidateOptionsForMenuItem(dish, ids) <==> IsOrderable(dish, ids)
  {
    forall g { GroupAccepts(g, ids); }
    DiffEmpty(ids, AllIds(dish.groups));
    forall id | id in ids
      ensures id in AllIds(dish.groups) <==> exists g :: g in dish.groups && Offers(g, id)
    {
      if id in AllIds(dish.groups) { var g := AllIdsComeFrom(dish.groups, id); }
      forall g, c | g in dish.groups && c in g.options && c.id == id ensures id in AllIds(dish.groups) {
        AllIdsContain(dish.groups, c, g);
      }
    }
    hide ValidateOptionSelection, Diff, AllIds, Intersect, Ids, NumberIn, Offers, OffersActive;
  }

  // ----- the cart writer -----

  ghost predicate Distinct(ids: seq<nat>) {
    forall i, j :: 0 <= i < j < |ids| ==> ids[i] != ids[j]
  }

  // What addItem's transaction does, against the menu as its lock finds it.
  ghost function AddOutcome(menu: Menu, now: Moment, menuItemId: nat, optionIds: seq<nat>): AddResult
    requires IsMoment(now)
  {
    if menuItemId !in menu then Broken
    else if !IsAvailableNow(menu[menuItemId].item, now) then ItemNotAvailable
    else if !ValidateOptionsForMenuItem(menu[menuItemId], optionIds) then InvalidOptionSelection
    else if !Distinct(optionIds) then Broken
    else LineAdded
  }

  class Cart {
    var lines: seq<Line>

    // All or nothing: the unique key on (cart item, option) undoes the whole line.
    method AddItem(menu: Menu, now: Moment, menuItemId: nat, quantity: nat, optionIds: seq<nat>)
      returns (r: AddResult)
      requires IsMoment(now)
      modifies this
      ensures r == AddOutcome(menu, now, menuItemId, optionIds)
      ensures lines == old(lines) + if r == LineAdded then [Line(menuItemId, quantity, optionIds)] else []
      ensures r == LineAdded <==>
                && menuItemId in menu && IsAvailableNow(menu[menuItemId].item, now)
                && IsOrderable(menu[menuItemId], optionIds) && Distinct(optionIds)
      ensures r == ItemNotAvailable <==> menuItemId in menu && !IsAvailableNow(menu[menuItemId].item, now)
      ensures r == InvalidOptionSelection <==>
                menuItemId in menu && IsAvailableNow(menu[menuItemId].item, now) && !IsOrderable(menu[menuItemId], optionIds)
    {
      hide ValidateOptionsForMenuItem, IsAvailableNow, IsOrderable;
      if menuItemId in menu { ValidatorMeaning(menu[menuItemId], optionIds); }
      if menuItemId !in menu { return Broken; }
      var dish := menu[menuItemId];
      if !IsAvailableNow(dish.item, now) { return ItemNotAvailable; }
      if !ValidateOptionsForMenuItem(dish, optionIds) { return InvalidOptionSelection; }
      var saved, stored := lines, [];
      for i := 0 to |optionIds|
        invariant lines == saved && stored == optionIds[..i] && Distinct(stored)
      {
        if optionIds[i] in stored {
          return Broken;
        }
        stored := stored + [optionIds[i]];
      }
      assert stored == optionIds;
      lines := saved + [Line(menuItemId, quantity, stored)];
      r := LineAdded;
    }
  }

  // ----- matching options -----

  // The past options still offered, in their past order.
  function Resolved(past: PastItem, dish: Dish): seq<nat> {
    ResolvedFrom(past.optionIds, ActiveIds(dish.groups))
  }

  function ResolvedFrom(ids: seq<Option<nat>>, active: seq<nat>): seq<nat> {
    if ids == [] then []
    else
      var last := ids[|ids| - 1];
      ResolvedFrom(ids[..|ids| - 1], active) + (if last.Some? && last.value in active then [last.value] else [])
  }

  lemma {:induction false} ResolvedMeaning(ids: seq<Option<nat>>, active: seq<nat>)
    ensures forall id :: id in ResolvedFrom(ids, active) <==> Some(id) in ids && id in active
  {
    if ids != [] {
      ResolvedMeaning(ids[..|ids| - 1], active);
      assert ids == ids[..|ids| - 1] + [ids[|ids| - 1]];
    }
  }

  function SelectedIn(past: PastItem, dish: Dish, g: OptionGroup): seq<nat> {
    Intersect(Resolved(past, dish), Ids(g.options))
  }

  // A required group gets fewer of the surviving options than it asks for.
  predicate TooFewIn(past: PastItem, dish: Dish, g: OptionGroup) {
    g.required && |SelectedIn(past, dish, g)| < g.minSelect
  }

  method ResolveOptions(past: PastItem, dish: Dish) returns (r: Result<seq<nat>, SkipReason>)
    ensures r.Failure? <==> exists g :: g in dish.groups && TooFewIn(past, dish, g)
    ensures r == Success(Resolved(past, dish)) || r == Failure(OptionConstraintsChanged)
  {
    if past.optionIds == [] {
      for i := 0 to |dish.groups|
        invariant forall k | 0 <= k < i :: !TooFewIn(past, dish, dish.groups[k])
      {
        assert SelectedIn(past, dish, dish.groups[i]) == [];
        if dish.groups[i].required && dish.groups[i].minSelect > 0 {
          assert TooFewIn(past, dish, dish.groups[i]);
          return Failure(OptionConstraintsChanged);
        }
      }
      return Success([]);
    }
    var active, resolved := ActiveIds(dish.groups), [];
    for i := 0 to |past.optionIds|
      invariant resolved == ResolvedFrom(past.optionIds[..i], active)
    {
      var id := past.optionIds[i];
      assert past.optionIds[..i + 1][..i] == past.optionIds[..i];
      if id.Some? && id.value in active {
        resolved := resolved + [id.value];
      }
    }
    assert past.optionIds[..|past.optionIds|] == past.optionIds;
    for i := 0 to |dish.groups|
      invariant forall k | 0 <= k < i :: !TooFewIn(past, dish, dish.groups[k])
    {
      var group := dish.groups[i];
      if group.required && |Intersect(resolved, Ids(group.options))| < group.minSelect {
        assert TooFewIn(past, dish, group);
        return Failure(OptionConstraintsChanged);
      }
    }
    return Success(resolved);
  }

  // What survives of the past options: those that some group of the dish offers as active.
  lemma ResolvedAreOffered(past: PastItem, dish: Dish)
    ensures forall id :: id in Resolved(past, dish) <==>
              Some(id) in past.optionIds && exists g :: g in dish.groups && OffersActive(g, id)
    ensures forall g :: |SelectedIn(past, dish, g)| == NumberIn(Resolved(past, dish), g)
  {
    ResolvedMeaning(past.optionIds, ActiveIds(dish.groups));
    forall id ensures id in ActiveIds(dish.groups) <==> exists g :: g in dish.groups && OffersActive(g, id) {
      ActiveIdsMeaning(dish.groups, id);
    }
    forall g { IntersectCounts(Resolved(past, dish), g); }
    hide Intersect, ResolvedFrom, ActiveIds, OffersActive, NumberIn;
  }

  lemma {:induction false} ActiveIdsMeaning(groups: seq<OptionGroup>, id: nat)
    ensures id in ActiveIds(groups) <==> exists g :: g in groups && OffersActive(g, id)
  {
    if groups != [] {
      ActiveIdsMeaning(groups[1..], id);
      IdsMeaning(groups[0].options, id);
      assert OffersActive(groups[0], id) <==> id in Ids(ActiveOnly(groups[0].options));
      hide OffersActive, Ids, ActiveOnly;
      assert forall g :: g in groups <==> g == groups[0] || g in groups[1..];
    }
  }

  // The pre-check never turns away what the validator would accept.
  lemma PreCheckIsNeverStricter(past: PastItem, dish: Dish, g: OptionGroup)
    requires g in dish.groups && TooFewIn(past, dish, g)
    ensures !ValidateOptionsForMenuItem(dish, Resolved(past, dish))
  {
    assert !ValidateOptionSelection(g, SelectedIn(past, dish, g));
  }

  // After matching, the validator is only about numbers: nothing inactive or foreign is
  // left to object to.
  lemma ValidatorOnResolved(past: PastItem, dish: Dish)
    requires OneRowPerOption(dish.groups)
    ensures ValidateOptionsForMenuItem(dish, Resolved(past, dish)) <==>
            forall g :: g in dish.groups ==> RightNumberIn(past, dish, g)
  {
    ResolvedBelong(past, dish);
    forall g | g in dish.groups
      ensures ValidateOptionSelection(g, SelectedIn(past, dish, g)) <==> RightNumberIn(past, dish, g)
    {
      SelectedAreActive(past, dish, g);
      hide Diff, Resolved, OneRowPerOption;
    }
    hide Diff, Resolved, OneRowPerOption, ValidateOptionSelection, RightNumberIn;
  }

  lemma ResolvedBelong(past: PastItem, dish: Dish)
    ensures Diff(Resolved(past, dish), AllIds(dish.groups)) == []
  {
    hide Diff, AllIds, ActiveIds, ResolvedFrom;
    DiffEmpty(Resolved(past, dish), AllIds(dish.groups));
    ResolvedMeaning(past.optionIds, ActiveIds(dish.groups));
    forall id | id in Resolved(past, dish) ensures id in AllIds(dish.groups) {
      var g, c := ActiveIdsComeFrom(dish.groups, id);
      AllIdsContain(dish.groups, c, g);
    }
  }

  predicate RightNumberIn(past: PastItem, dish: Dish, g: OptionGroup) {
    var count := |SelectedIn(past, dish, g)|;
    g.minSelect <= count <= g.maxSelect && (g.required ==> count > 0)
  }

  lemma SelectedAreActive(past: PastItem, dish: Dish, g: OptionGroup)
    requires OneRowPerOption(dish.groups) && g in dish.groups
    ensures Diff(SelectedIn(past, dish, g), Ids(ActiveOnly(g.options))) == []
  {
    hide Diff, Ids, ActiveIds, ActiveOnly, ResolvedFrom, Intersect;
    DiffEmpty(SelectedIn(past, dish, g), Ids(ActiveOnly(g.options)));
    ResolvedMeaning(past.optionIds, ActiveIds(dish.groups));
    IntersectMeaning(Resolved(past, dish), Ids(g.options));
    forall id | id in SelectedIn(past, dish, g) ensures id in Ids(ActiveOnly(g.options)) {
      var h, b := ActiveIdsComeFrom(dish.groups, id);
      var a := IdsComeFrom(g.options, id);
      IdsContain(g.options, a);
    }
  }

  // ----- one past item -----

  // The menu as read at the start and the clock when this item is looked at; then the
  // menu and clock the cart writer sees.
  datatype View = View(now: Moment, lockedMenu: Menu, lockedNow: Moment)

  predicate IsView(v: View) {
    IsMoment(v.now) && IsMoment(v.lockedNow)
  }

  ghost function FateOf(past: PastItem, menu: Menu, v: View): Fate
    requires IsView(v)
  {
    if past.menuItemId.None? || past.menuItemId.value !in menu then Skipped(MenuItemDeleted)
    else
      var dish := menu[past.menuItemId.value];
      if !dish.item.isActive then Skipped(Inactive)
      else if dish.item.isSoldOut then Skipped(SoldOut)
      else if !IsAvailableNow(dish.item, v.now) then Skipped(OutsideTimeWindow)
      else if exists g :: g in dish.groups && TooFewIn(past, dish, g) then Skipped(OptionConstraintsChanged)
      else
        match AddOutcome(v.lockedMenu, v.lockedNow, past.menuItemId.value, Resolved(past, dish))
        case LineAdded => Added
        case ItemNotAvailable => Skipped(SoldOut)
        case InvalidOptionSelection => Skipped(OptionConstraintsChanged)
        case Broken => Crashed
  }

  // On the menu as it was read: there, on sale, and no required group left short.
  ghost predicate PassesPreChecks(past: PastItem, menu: Menu, now: Moment)
    requires IsMoment(now)
  {
    && past.menuItemId.Some? && past.menuItemId.value in menu
    && var dish := menu[past.menuItemId.value];
       && dish.item.isActive && !dish.item.isSoldOut && IsAvailableNow(dish.item, now)
       && forall g :: g in dish.groups && g.required ==> g.minSelect <= NumberIn(Resolved(past, dish), g)
  }

  // The fate of an item, reason by reason, whatever has become of the menu by the time the
  // cart writer locks it.
  lemma FateMeaning(past: PastItem, menu: Menu, v: View)
    requires IsView(v)
    ensures var fate := FateOf(past, menu, v);
            var there := past.menuItemId.Some? && past.menuItemId.value in menu;
            && (fate == Skipped(MenuItemDeleted) <==> !there)
            && (there ==>
                  var dish := menu[past.menuItemId.value];
                  var ids := Resolved(past, dish);
                  var passes := PassesPreChecks(past, menu, v.now);
                  var locked := past.menuItemId.value in v.lockedMenu;
                  var onSale := locked && IsAvailableNow(v.lockedMenu[past.menuItemId.value].item, v.lockedNow);
                  var orderable := onSale && IsOrderable(v.lockedMenu[past.menuItemId.value], ids);
                  var open := dish.item.isActive && !dish.item.isSoldOut;
                  && (fate == Skipped(Inactive) <==> !dish.item.isActive)
                  && (fate == Skipped(OutsideTimeWindow) <==> open && !IsAvailableNow(dish.item, v.now))
                  && (fate == Skipped(SoldOut) <==>
                        (dish.item.isActive && dish.item.isSoldOut) || (passes && locked && !onSale))
                  && (fate == Skipped(OptionConstraintsChanged) <==>
                        open && IsAvailableNow(dish.item, v.now) && (!passes || (onSale && !orderable)))
                  && (fate == Added <==> passes && orderable && Distinct(ids))
                  && (fate == Crashed <==> passes && (!locked || (orderable && !Distinct(ids)))))
  {
    if past.menuItemId.Some? && past.menuItemId.value in menu {
      var dish := menu[past.menuItemId.value];
      ResolvedAreOffered(past, dish);
      assert forall g :: TooFewIn(past, dish, g) <==> g.required && NumberIn(Resolved(past, dish), g) < g.minSelect;
      if past.menuItemId.value in v.lockedMenu {
        ValidatorMeaning(v.lockedMenu[past.menuItemId.value], Resolved(past, dish));
      }
    }
    hide ValidateOptionsForMenuItem, Resolved, TooFewIn, IsAvailableNow, IsOrderable, NumberIn, Distinct;
  }

  // The line a past item puts into the cart.
  ghost function LineFor(past: PastItem, menu: Menu): seq<Line> {
    if past.menuItemId.Some? && past.menuItemId.value in menu then
      [Line(past.menuItemId.value, past.quantity, Resolved(past, menu[past.menuItemId.value]))]
    else []
  }

  ghost predicate SameView(menu: Menu, v: View) {
    v.lockedMenu == menu && v.lockedNow == v.now
  }

  // The menu item is there, on sale, and the validator accepts the surviving options.
  ghost predicate Accepted(past: PastItem, menu: Menu, now: Moment)
    requires IsMoment(now)
  {
    && past.menuItemId.Some? && past.menuItemId.value in menu
    && IsAvailableNow(menu[past.menuItemId.value].item, now)
    && ValidateOptionsForMenuItem(menu[past.menuItemId.value], Resolved(past, menu[past.menuItemId.value]))
  }

  // For one view of the menu: added exactly when accepted with no option twice, and
  // whatever is skipped was turned away for its own reason, never by the cart writer
  // reporting it sold out.
  lemma AddedIffAccepted(past: PastItem, menu: Menu, v: View)
    requires IsView(v) && SameView(menu, v)
    ensures FateOf(past, menu, v).Added? <==>
            Accepted(past, menu, v.now) && Distinct(Resolved(past, menu[past.menuItemId.value]))
    ensures FateOf(past, menu, v).Crashed? <==>
            Accepted(past, menu, v.now) && !Distinct(Resolved(past, menu[past.menuItemId.value]))
    ensures FateOf(past, menu, v) == Skipped(SoldOut) ==> menu[past.menuItemId.value].item.isSoldOut
  {
    if past.menuItemId.Some? && past.menuItemId.value in menu {
      var dish := menu[past.menuItemId.value];
      if g :| g in dish.groups && TooFewIn(past, dish, g) {
        PreCheckIsNeverStricter(past, dish, g);
      }
      hide ValidateOptionsForMenuItem, Resolved, TooFewIn;
    }
  }

  // An order made from a cart has no option twice on one item; then nothing crashes.
  lemma {:induction false} DistinctStaysDistinct(ids: seq<Option<nat>>, active: seq<nat>)
    requires forall i, j :: 0 <= i < j < |ids| && ids[i].Some? ==> ids[i] != ids[j]
    ensures Distinct(ResolvedFrom(ids, active))
  {
    if ids != [] {
      var front, last := ids[..|ids| - 1], ids[|ids| - 1];
      DistinctStaysDistinct(front, active);
      ResolvedMeaning(front, active);
      assert last.Some? ==> last !in front;
    }
  }

  lemma CartOrdersNeverCrash(past: PastItem, menu: Menu, v: View)
    requires IsView(v) && SameView(menu, v)
    requires forall i, j :: 0 <= i < j < |past.optionIds| && past.optionIds[i].Some? ==>
               past.optionIds[i] != past.optionIds[j]
    ensures !FateOf(past, menu, v).Crashed?
  {
    AddedIffAccepted(past, menu, v);
    if past.menuItemId.Some? && past.menuItemId.value in menu {
      DistinctStaysDistinct(past.optionIds, ActiveIds(menu[past.menuItemId.value].groups));
    }
    hide FateOf, Accepted;
  }

  // An item that somehow has one option twice throws, although the validator accepts it.
  lemma DuplicateOptionCrashes() returns (past: PastItem, menu: Menu, v: View)
    ensures IsView(v) && SameView(menu, v) && FateOf(past, menu, v).Crashed?
  {
    var item := MenuItem(1, true, false, ALL_DAYS, None, None);
    var group := OptionGroup(false, 0, 2, [Choice(7, true)]);
    var dish := Dish(item, [group]);
    menu := map[1 := dish];
    past := PastItem(Some(1), 1, [Some(7), Some(7)]);
    var now := Moment(0, "12:00:00");
    v := View(now, menu, now);
    EntryIsLive(item, now);
    TwiceResolved(past, dish, group);
    TwiceSelected(past, dish, group);
    assert OneRowPerOption(dish.groups);
    assert Resolved(past, dish)[0] == Resolved(past, dish)[1];
    AddedIffAccepted(past, menu, v);
    ValidatorOnResolved(past, dish);
    hide FateOf, ValidateOptionsForMenuItem, Resolved, IsAvailableNow;
  }

  lemma TwiceResolved(past: PastItem, dish: Dish, group: OptionGroup)
    requires group == OptionGroup(false, 0, 2, [Choice(7, true)]) && dish.groups == [group]
    requires past.optionIds == [Some(7), Some(7)]
    ensures Resolved(past, dish) == [7, 7]
  {
    hide Intersect;
    assert ActiveOnly(group.options) == group.options;
    assert ActiveIds(dish.groups) == [7];
    assert past.optionIds[..1] == [Some(7)] && past.optionIds[..1][..0] == [];
    assert ResolvedFrom(past.optionIds[..1], [7]) == [7];
  }

  lemma TwiceSelected(past: PastItem, dish: Dish, group: OptionGroup)
    requires group == OptionGroup(false, 0, 2, [Choice(7, true)]) && dish.groups == [group]
    requires Resolved(past, dish) == [7, 7]
    ensures forall g :: g in dish.groups ==> RightNumberIn(past, dish, g)
  {
    hide ResolvedFrom, ActiveIds, Resolved;
    assert Ids(group.options) == [7];
    assert Intersect([7], [7]) == [7];
    assert [7, 7][1..] == [7];
    assert Intersect([7, 7], [7]) == [7, 7];
  }

  method ProcessOrderItem(cart: Cart, past: PastItem, menu: Menu, v: View) returns (fate: Fate)
    requires IsView(v)
    modifies cart
    ensures fate == FateOf(past, menu, v)
    ensures cart.lines == old(cart.lines) + if fate.Added? then LineFor(past, menu) else []
    ensures fate.Added? ==>
              past.menuItemId.Some? && past.menuItemId.value in menu &&
              cart.lines == old(cart.lines) +
                            [Line(past.menuItemId.value, past.quantity, Resolved(past, menu[past.menuItemId.value]))]
  {
    if past.menuItemId.None? { return Skipped(MenuItemDeleted); }
    if past.menuItemId.value !in menu { return Skipped(MenuItemDeleted); }
    var dish := menu[past.menuItemId.value];
    if !dish.item.isActive { return Skipped(Inactive); }
    if dish.item.isSoldOut { return Skipped(SoldOut); }
    if !IsAvailableNow(dish.item, v.now) { return Skipped(OutsideTimeWindow); }
    var resolved := ResolveOptions(past, dish);
    if resolved.Failure? { return Skipped(resolved.error); }
    var r := cart.AddItem(v.lockedMenu, v.lockedNow, past.menuItemId.value, past.quantity, resolved.value);
    match r
    case LineAdded => return Added;
    case ItemNotAvailable => return Skipped(SoldOut);
    case InvalidOptionSelection => return Skipped(OptionConstraintsChanged);
    case Broken => return Crashed;
  }

  // ----- the whole order -----

  datatype Summary = Summary(added: seq<nat>, skipped: seq<(nat, SkipReason)>)

  datatype ReorderError = NothingToReorder | UncaughtException

  ghost predicate AreViews(past: seq<PastItem>, views: seq<View>) {
    |views| == |past| && forall i | 0 <= i < |views| :: IsView(views[i])
  }

  // The lines of the first n items that are added.
  ghost function LinesAdded(past: seq<PastItem>, menu: Menu, views: seq<View>, n: nat): seq<Line>
    requires AreViews(past, views) && n <= |past|
  {
    if n == 0 then []
    else
      LinesAdded(past, menu, views, n - 1) +
      (if FateOf(past[n - 1], menu, views[n - 1]).Added? then LineFor(past[n - 1], menu) else [])
  }

  // Added and skipped split the first n positions between them, in order, each under its
  // own fate.
  ghost predicate Splits(s: Summary, past: seq<PastItem>, menu: Menu, views: seq<View>, n: nat)
    requires AreViews(past, views) && n <= |past|
  {
    && (forall i | 0 <= i < n :: i in s.added <==> FateOf(past[i], menu, views[i]).Added?)
    && (forall k | k in s.added :: k < n)
    && (forall i, r | 0 <= i < n :: (i, r) in s.skipped <==> FateOf(past[i], menu, views[i]) == Skipped(r))
    && (forall p | p in s.skipped :: p.0 < n)
    && (forall a, b | 0 <= a < b < |s.added| :: s.added[a] < s.added[b])
    && (forall a, b | 0 <= a < b < |s.skipped| :: s.skipped[a].0 < s.skipped[b].0)
    && |s.added| + |s.skipped| == n
  }

  ghost predicate CrashesAt(past: seq<PastItem>, menu: Menu, views: seq<View>, n: nat)
    requires AreViews(past, views) && n < |past|
  {
    FateOf(past[n], menu, views[n]).Crashed? && forall i | 0 <= i < n :: !FateOf(past[i], menu, views[i]).Crashed?
  }

  function Record(s: Summary, i: nat, fate: Fate): Summary {
    match fate
    case Added => s.(added := s.added + [i])
    case Skipped(reason) => s.(skipped := s.skipped + [(i, reason)])
    case Crashed => s
  }

  lemma SplitsAdded(s: Summary, past: seq<PastItem>, menu: Menu, views: seq<View>, i: nat)
    requires AreViews(past, views) && i < |past| && Splits(s, past, menu, views, i)
    requires FateOf(past[i], menu, views[i]).Added?
    ensures Splits(s.(added := s.added + [i]), past, menu, views, i + 1)
  {
    hide FateOf;
    var added := s.added + [i];
    assert forall k :: k in added <==> k in s.added || k == i;
    assert forall a | 0 <= a < |s.added| :: s.added[a] in s.added;
    assert forall a, b | 0 <= a < b < |added| :: added[a] < added[b];
  }

  lemma SplitsSkipped(s: Summary, past: seq<PastItem>, menu: Menu, views: seq<View>, i: nat, reason: SkipReason)
    requires AreViews(past, views) && i < |past| && Splits(s, past, menu, views, i)
    requires FateOf(past[i], menu, views[i]) == Skipped(reason)
    ensures Splits(s.(skipped := s.skipped + [(i, reason)]), past, menu, views, i + 1)
  {
    hide FateOf;
    var skipped := s.skipped + [(i, reason)];
    assert forall p :: p in skipped <==> p in s.skipped || p == (i, reason);
    assert forall k, r | 0 <= k < i + 1 :: (k, r) in skipped <==> FateOf(past[k], menu, views[k]) == Skipped(r);
    assert forall a | 0 <= a < |s.skipped| :: s.skipped[a] in s.skipped;
    assert forall a, b | 0 <= a < b < |skipped| :: skipped[a].0 < skipped[b].0;
  }

  lemma SplitsStep(s: Summary, past: seq<PastItem>, menu: Menu, views: seq<View>, i: nat)
    requires AreViews(past, views) && i < |past| && Splits(s, past, menu, views, i)
    requires !FateOf(past[i], menu, views[i]).Crashed?
    ensures Splits(Record(s, i, FateOf(past[i], menu, views[i])), past, menu, views, i + 1)
  {
    hide FateOf, Splits;
    match FateOf(past[i], menu, views[i])
    case Added => SplitsAdded(s, past, menu, views, i);
    case Skipped(reason) => SplitsSkipped(s, past, menu, views, i, reason);
  }

  lemma SplitsNothing(past: seq<PastItem>, menu: Menu, views: seq<View>)
    requires AreViews(past, views)
    ensures Splits(Summary([], []), past, menu, views, 0)
  {
    hide FateOf;
  }

  lemma NoneAdded(s: Summary, past: seq<PastItem>, menu: Menu, views: seq<View>)
    requires AreViews(past, views) && Splits(s, past, menu, views, |past|) && s.added == []
    ensures forall i | 0 <= i < |past| :: !FateOf(past[i], menu, views[i]).Added?
  {
    hide FateOf;
  }

  // Items already added stay in the cart when a later one throws: every addItem is a
  // transaction of its own.
  method ReorderItems(cart: Cart, past: seq<PastItem>, menu: Menu, views: seq<View>)
    returns (r: Result<Summary, ReorderError>)
    requires AreViews(past, views)
    modifies cart
    ensures r.Success? ==>
              Splits(r.value, past, menu, views, |past|) && r.value.added != [] &&
              cart.lines == old(cart.lines) + LinesAdded(past, menu, views, |past|)
    ensures r == Failure(NothingToReorder) ==>
              cart.lines == old(cart.lines) && forall i | 0 <= i < |past| :: FateOf(past[i], menu, views[i]).Skipped?
    ensures r == Failure(UncaughtException) ==>
              exists n :: 0 <= n < |past| && CrashesAt(past, menu, views, n) &&
                          cart.lines == old(cart.lines) + LinesAdded(past, menu, views, n)
  {
    hide FateOf, Splits, LineFor;
    var s := Summary([], []);
    SplitsNothing(past, menu, views);
    for i := 0 to |past|
      invariant Splits(s, past, menu, views, i)
      invariant cart.lines == old(cart.lines) + LinesAdded(past, menu, views, i)
      invariant forall k | 0 <= k < i :: !FateOf(past[k], menu, views[k]).Crashed?
      invariant s.added == [] ==> LinesAdded(past, menu, views, i) == []
    {
      var fate := ProcessOrderItem(cart, past[i], menu, views[i]);
      if fate.Crashed? {
        assert CrashesAt(past, menu, views, i);
        return Failure(UncaughtException);
      }
      SplitsStep(s, past, menu, views, i);
      s := Record(s, i, fate);
    }
    if s.added == [] { NoneAdded(s, past, menu, views); }
    if s.added == [] { return Failure(NothingToReorder); }
    return Success(s);
  }
}
