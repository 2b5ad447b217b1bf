/**
 The history popup: a menu filled with as many matching items as fit, whose last entry opens a
 "More" menu that is filled from where this one stopped, and so on.
 */
module HistoryPopup {
  import opened RingSpec
  import opened ClipboardHistory

  datatype Action = Entry(uuid: Uuid) | More(menu: Menu) | Fixed

  class Menu {
    var actions: seq<Action>

    constructor ()
      ensures actions == []
    {
      actions := [];
    }

    /** Inserts before the action at this index, or at the end when there is none. */
    method InsertAction(index: nat, action: Action)
      modifies this
      ensures actions == Inserted(old(actions), index, [action])
      ensures actions == if index <= |old(actions)| then old(actions)[..index] + [action] + old(actions)[index..]
                         else old(actions) + [action]
    {
      var at := if index < |actions| then index else |actions|;
      actions := actions[..at] + [action] + actions[at..];
    }
  }

  function Inserted<T>(s: seq<T>, index: nat, block: seq<T>): (r: seq<T>) {
    var at := if index < |s| then index else |s|;
    s[..at] + block + s[at..]
  }

  /** The uuids of the items of s whose text the filter matches, in order. */
  ghost function Matching(s: seq<HistoryItem>, filter: string -> bool): seq<Uuid> {
    if s == [] then []
    else Matching(s[..|s| - 1], filter) +
         (if filter(s[|s| - 1].text) then [s[|s| - 1].uuid] else [])
  }

  ghost function Entries(uuids: seq<Uuid>): (r: seq<Action>)
    ensures |r| == |uuids| && forall i :: 0 <= i < |uuids| ==> r[i] == Entry(uuids[i])
  {
    seq(|uuids|, i requires 0 <= i < |uuids| => Entry(uuids[i]))
  }

  lemma {:induction false} MatchingConcat(s: seq<HistoryItem>, t: seq<HistoryItem>, filter: string -> bool)
    ensures Matching(s + t, filter) == Matching(s, filter) + Matching(t, filter)
  {
    if t == [] {
      assert s + t == s;
    } else {
      var k := |t| - 1;
      MatchingConcat(s, t[..k], filter);
      assert (s + t)[..|s + t| - 1] == s + t[..k] && (s + t)[|s + t| - 1] == t[k];
      assert Matching(s + t, filter)
          == Matching(s + t[..k], filter) + (if filter(t[k].text) then [t[k].uuid] else []);
    }
  }

  lemma InsertedTwice<T>(s: seq<T>, index: nat, a: seq<T>, b: seq<T>)
    ensures Inserted(Inserted(s, index, a), index + |a|, b) == Inserted(s, index, a + b)
  {
  }

  lemma MatchingStep(s: seq<HistoryItem>, p: nat, q: nat, filter: string -> bool)
    requires p <= q < |s|
    ensures Matching(s[p..q + 1], filter)
         == Matching(s[p..q], filter) + (if filter(s[q].text) then [s[q].uuid] else [])
  {
    assert s[p..q + 1][..q - p] == s[p..q];
  }

  /** What the filter leaves of one item. */
  lemma MatchingOne(x: HistoryItem, filter: string -> bool)
    ensures Matching([x], filter) == if filter(x.text) then [x.uuid] else []
  {
    assert [x][..0] == [];
  }

  /** How high the entries of the matching items are together. */
  ghost function HeightOf(s: seq<HistoryItem>, height: HistoryItem -> int, filter: string -> bool): int {
    if s == [] then 0
    else HeightOf(s[..|s| - 1], height, filter) + (if filter(s[|s| - 1].text) then height(s[|s| - 1]) else 0)
  }

  lemma HeightStep(s: seq<HistoryItem>, p: nat, q: nat, height: HistoryItem -> int, filter: string -> bool)
    requires p <= q < |s|
    ensures HeightOf(s[p..q + 1], height, filter)
         == HeightOf(s[p..q], height, filter) + (if filter(s[q].text) then height(s[q]) else 0)
  {
    assert s[p..q + 1][..q - p] == s[p..q];
  }

  /** The menu has not become too high so far. */
  ghost predicate HasRoom(ring: seq<HistoryItem>, from: nat, to: nat, room: int, height: HistoryItem -> int, filter: string -> bool)
    requires from <= to <= |ring|
  {
    forall i :: from < i <= to ==> HeightOf(ring[from..i], height, filter) <= room
  }

  /** A page goes on as long as there is room, and ends with the item for which there was none any more, or with the
      last one of the ring. */
  ghost predicate Fills(ring: seq<HistoryItem>, from: nat, to: nat, room: int, height: HistoryItem -> int, filter: string -> bool) {
    && from < to <= |ring|
    && (forall i :: from < i < to ==> HeightOf(ring[from..i], height, filter) <= room)
    && (to < |ring| ==> HeightOf(ring[from..to], height, filter) > room)
  }

  lemma RoomGoesOn(ring: seq<HistoryItem>, from: nat, to: nat, room: int, height: HistoryItem -> int, filter: string -> bool)
    requires from <= to < |ring| && HasRoom(ring, from, to, room, height, filter)
    ensures HeightOf(ring[from..to + 1], height, filter) <= room ==> HasRoom(ring, from, to + 1, room, height, filter)
    ensures to + 1 == |ring| || HeightOf(ring[from..to + 1], height, filter) > room
      ==> Fills(ring, from, to + 1, room, height, filter)
  {
  }

  class PopupProxy {
    const history: History
    const parent: Menu
    const height: HistoryItem -> int   // of an item's menu entry, in pixels
    const menuHeight: int
    var filter: string -> bool
    var proxyForMenu: Menu
    var spill: Option<Uuid>
    /** How many items of the ring the menus built so far have gone through. */
    ghost var consumed: nat

    constructor (history: History, parent: Menu, height: HistoryItem -> int, menuHeight: int, filter: string -> bool)
      requires history.Valid()
      ensures this.history == history && this.parent == parent && this.height == height
      ensures this.menuHeight == menuHeight && this.filter == filter && proxyForMenu == parent
    {
      this.history, this.parent, this.height, this.menuHeight, this.filter := history, parent, height, menuHeight, filter;
      proxyForMenu := parent;
      spill := if history.top != null then Some(history.top.uuid) else None;
      consumed := 0;
    }

    /** A menu is waiting to be filled with the items from position consumed on. */
    ghost predicate Pending()
      reads this, history
    {
      consumed < |history.ring| && spill == Some(history.ring[consumed].uuid)
    }

    /** Adds the entry of an item and subtracts the height it takes. */
    method TryInsertItem(item: HistoryItem, remainingHeight: int, index: nat, ghost start: nat,
                         ghost before: seq<Action>, ghost page: seq<Uuid>)
      returns (remaining: int)
      requires proxyForMenu.actions == Inserted(before, start, Entries(page)) && index == start + |page|
      modifies proxyForMenu
      ensures proxyForMenu.actions == Inserted(before, start, Entries(page + [item.uuid]))
      ensures remaining == remainingHeight - height(item)
    {
      proxyForMenu.InsertAction(index, Entry(item.uuid));
      InsertedTwice(before, start, Entries(page), [Entry(item.uuid)]);
      assert Entries(page + [item.uuid]) == Entries(page) + [Entry(item.uuid)];
      remaining := remainingHeight - height(item);
    }

    /** The item to go on with has gone from the history, or there never was one. */
    ghost predicate Lost()
      reads this, history
    {
      spill.None? || spill.value !in history.items
    }

    /** Where in the ring the pending menu goes on. */
    ghost function SpillPosition(): nat
      requires history.Linked() && !Lost()
      reads this, history, history.ring
      ensures SpillPosition() < |history.ring| && history.ring[SpillPosition()].uuid == spill.value
    {
      TableCovered(history.items, history.ring);
      Position(history.ring, spill.value)
    }

    /** A menu that was to go on with an item that has gone since stays as it is. */
    method InsertFromSpill(start: nat, sizeHint: int) returns (count: nat)
      requires history.Valid()
      modifies this`proxyForMenu, this`spill, this`consumed, proxyForMenu
      ensures old(Lost()) ==> count == 0 && unchanged(this) && unchanged(proxyForMenu)
      ensures !old(Lost()) ==> old(SpillPosition()) < consumed <= |history.ring|
      ensures !old(Lost()) ==> Fills(history.ring, old(SpillPosition()), consumed, menuHeight - sizeHint, height, filter)
      ensures !old(Lost()) ==>
        var page := Matching(history.ring[old(SpillPosition())..consumed], filter);
        && count == |page|
        && (consumed == |history.ring| ==>
              && proxyForMenu == old(proxyForMenu) && spill == Some(history.ring[0].uuid)
              && proxyForMenu.actions == Inserted(old(proxyForMenu.actions), start, Entries(page)))
        && (consumed < |history.ring| ==>
              && Pending() && fresh(proxyForMenu) && proxyForMenu.actions == []
              && old(proxyForMenu).actions
                 == Inserted(old(proxyForMenu.actions), start, Entries(page) + [More(proxyForMenu)]))
    {
      if spill.None? {
        return 0;
      }
      var item := history.Find(spill.value);
      if item == null {
        return 0;
      }
      consumed := SpillPosition();
      ghost var page;
      count, page := FillMenu(item, start, menuHeight - sizeHint);
      if spill.value != history.top.uuid {
        var moreMenu := new Menu();
        proxyForMenu.InsertAction(start + count, More(moreMenu));
        InsertedTwice(old(proxyForMenu.actions), start, Entries(page), [More(moreMenu)]);
        proxyForMenu := moreMenu;
      }
    }

    /** While the history does not change, the pending menu goes on where the last one ended. */
    lemma GoesOn()
      requires history.Valid() && Pending()
      ensures !Lost() && SpillPosition() == consumed
    {
      TableCovered(history.items, history.ring);
      assert history.ring[consumed].uuid in Uuids(history.ring);
      assert Position(history.ring, history.ring[consumed].uuid) == consumed;
    }

    /** The loop over the items: it stops at the end of the ring, or once the menu is too high. */
    method FillMenu(first: HistoryItem, start: nat, room: int) returns (count: nat, ghost page: seq<Uuid>)
      requires history.Valid() && Pending() && first == history.ring[consumed]
      modifies this`spill, this`consumed, proxyForMenu
      ensures Fills(history.ring, old(consumed), consumed, room, height, filter)
      ensures page == Matching(history.ring[old(consumed)..consumed], filter) && count == |page|
      ensures proxyForMenu.actions == Inserted(old(proxyForMenu.actions), start, Entries(page))
      ensures spill == Some(history.ring[if consumed == |history.ring| then 0 else consumed].uuid)
      ensures consumed < |history.ring| <==> spill != Some(history.top.uuid)
    {
      hide HeightOf, Matching, Fills, HasRoom, Entries;
      ghost var p, k, ring, before := consumed, consumed, history.ring, proxyForMenu.actions;
      var remainingHeight, item := room, first;
      NothingYet(ring, p, room, before, start);
      count, page := 0, [];
      while true
        invariant p <= k < |ring| && item == ring[k]
        invariant page == Matching(ring[p..k], filter) && count == |page|
        invariant proxyForMenu.actions == Inserted(before, start, Entries(page))
        invariant remainingHeight == room - HeightOf(ring[p..k], height, filter)
        invariant HasRoom(ring, p, k, room, height, filter)
        decreases |ring| - k
      {
        MatchingStep(ring, p, k, filter);
        HeightStep(ring, p, k, height, filter);
        RoomGoesOn(ring, p, k, room, height, filter);
        if filter(item.text) {
          remainingHeight := TryInsertItem(item, remainingHeight, start + count, start, before, page);
          page := page + [item.uuid];
          count := count + 1;
        }
        item := NextItem(item, k);
        k := k + 1;
        if item == history.top || remainingHeight < 0 {
          break;
        }
      }
      spill, consumed := Some(item.uuid), k;
    }

    lemma NothingYet(ring: seq<HistoryItem>, p: nat, room: int, before: seq<Action>, start: nat)
      requires p <= |ring|
      ensures Matching(ring[p..p], filter) == [] && HeightOf(ring[p..p], height, filter) == 0
      ensures HasRoom(ring, p, p, room, height, filter) && Inserted(before, start, Entries([])) == before
    {
    }

    /** Stepping along the ring, and noticing when it is back at the top. */
    method NextItem(item: HistoryItem, ghost k: nat) returns (next: HistoryItem)
      requires history.Valid() && k < |history.ring| && item == history.ring[k]
      ensures next == history.ring[After(k, |history.ring|)]
      ensures next == history.top <==> k + 1 == |history.ring|
      ensures next.uuid == history.ring[0].uuid <==> next == history.top
    {
      history.Neighbours(k);
      next := history.Find(item.nextUuid);
      assert Position(history.ring, next.uuid) == After(k, |history.ring|);
      assert Position(history.ring, history.ring[0].uuid) == 0;
    }

    /** Starts again from the top of the history. */
    method BuildParent(start: nat, newFilter: Option<string -> bool>, sizeHint: int) returns (count: nat)
      requires history.Valid()
      modifies this, parent
      ensures newFilter.Some? ==> filter == newFilter.value
      ensures newFilter.None? ==> filter == old(filter)
      ensures consumed <= |history.ring| && (history.ring == [] <==> consumed == 0)
      ensures count == |Matching(history.ring[..consumed], filter)|
      ensures history.ring != [] ==> Fills(history.ring, 0, consumed, menuHeight - sizeHint, height, filter)
      ensures consumed == |history.ring| ==>
        && proxyForMenu == parent
        && spill == (if history.ring == [] then None else Some(history.ring[0].uuid))
        && parent.actions == Inserted(old(parent.actions), start, Entries(Matching(history.ring[..consumed], filter)))
      ensures consumed < |history.ring| ==>
        && Pending() && fresh(proxyForMenu) && proxyForMenu.actions == []
        && parent.actions == Inserted(old(parent.actions), start,
             Entries(Matching(history.ring[..consumed], filter)) + [More(proxyForMenu)])
    {
      proxyForMenu := parent;
      consumed := 0;
      spill := if history.top != null then Some(history.top.uuid) else None;
      if newFilter.Some? {
        filter := newFilter.value;
      }
      if spill.None? {
        assert Inserted(parent.actions, start, Entries([])) == parent.actions;
        return 0;
      }
      GoesOn();
      count := InsertFromSpill(start, sizeHint);
      assert history.ring[0..consumed] == history.ring[..consumed];
    }

    lemma TopIsFirst()
      requires history.Valid() && history.ring != []
      ensures history.top == history.ring[0]
      ensures forall k :: 0 < k < |history.ring| ==> history.ring[k].uuid != history.ring[0].uuid
    {
      forall k | 0 < k < |history.ring| ensures history.ring[k].uuid != history.ring[0].uuid {
        assert Position(history.ring, history.ring[k].uuid) == k && Position(history.ring, history.ring[0].uuid) == 0;
      }
    }

    /** Opens the pending "More" menu and all that follow; hint gives the height of each still empty menu. */
    method OpenRest(hint: nat -> int, depth: nat) returns (menus: seq<Menu>)
      requires history.Valid() && 1 <= consumed <= |history.ring| && spill.Some?
      requires if consumed == |history.ring| then spill.value == history.top.uuid
               else Pending() && proxyForMenu.actions == []
      modifies this`proxyForMenu, this`spill, this`consumed, proxyForMenu
      ensures menus != [] ==> menus[0] == old(proxyForMenu)
      ensures menus == [] ==> old(proxyForMenu).actions == old(proxyForMenu.actions)
      ensures Shown(menus, old(consumed), history.ring, filter)
      decreases |history.ring| - consumed
    {
      hide History.Valid, Shown, Matching, Entries;
      TopIsFirst();
      if spill.value == history.top.uuid {
        NothingShown(history.ring, filter);
        return [];
      }
      var menu := proxyForMenu;
      ghost var from := consumed;
      GoesOn();
      var _ := InsertFromSpill(0, hint(depth));
      ghost var to := consumed;
      ghost var page := Entries(Matching(history.ring[from..to], filter));
      assert Inserted([], 0, page) == page && Inserted([], 0, page + [More(proxyForMenu)]) == page + [More(proxyForMenu)];
      var rest := OpenRest(hint, depth + 1);
      menus := [menu] + rest;
      ShownEmpty(rest, to, history.ring, filter);
      ShownFirst(menu, rest, from, to, history.ring, filter);
    }

    /** Builds the popup and opens one "More" menu after the other. */
    method OpenAll(start: nat, newFilter: Option<string -> bool>, hint: nat -> int)
      returns (menus: seq<Menu>, ghost first: nat)
      requires history.Valid() && history.ring != []
      modifies this, parent
      ensures newFilter.Some? ==> filter == newFilter.value
      ensures menus != [] && menus[0] == parent && 1 <= first <= |history.ring|
      ensures Fills(history.ring, 0, first, menuHeight - hint(0), height, filter)
      ensures first < |history.ring| <==> 2 <= |menus|
      ensures parent.actions == Inserted(old(parent.actions), start,
        Entries(Matching(history.ring[..first], filter)) + (if 2 <= |menus| then [More(menus[1])] else []))
      ensures Shown(menus[1..], first, history.ring, filter)
    {
      var _ := BuildParent(start, newFilter, hint(0));
      first := consumed;
      var rest := OpenRest(hint, 1);
      menus := [parent] + rest;
      assert menus[1..] == rest;
    }
  }

  /** The first menu shows the matching items from one position up to another, and the way to the next menu. */
  ghost predicate ShowsPage(menus: seq<Menu>, from: nat, to: nat, ring: seq<HistoryItem>, filter: string -> bool)
    requires from <= |ring|
    reads menus
  {
    && from < to <= |ring| && menus != [] && (to < |ring| <==> 2 <= |menus|)
    && menus[0].actions
       == Entries(Matching(ring[from..to], filter)) + (if 2 <= |menus| then [More(menus[1])] else [])
  }

  /** The menus show the items from a position on, page after page, until the ring is exhausted. */
  ghost predicate Shown(menus: seq<Menu>, from: nat, ring: seq<HistoryItem>, filter: string -> bool)
    requires from <= |ring|
    reads menus
    decreases |menus|
  {
    if from == |ring| then menus == []
    else exists to: nat :: ShowsPage(menus, from, to, ring, filter) && Shown(menus[1..], to, ring, filter)
  }

  lemma ShownFirst(menu: Menu, rest: seq<Menu>, from: nat, to: nat, ring: seq<HistoryItem>, filter: string -> bool)
    requires from < to <= |ring| && (to < |ring| <==> rest != []) && Shown(rest, to, ring, filter)
    requires menu.actions
      == Entries(Matching(ring[from..to], filter)) + (if rest != [] then [More(rest[0])] else [])
    ensures Shown([menu] + rest, from, ring, filter)
  {
    hide Matching, Entries;
    var menus := [menu] + rest;
    assert menus[1..] == rest;
    assert ShowsPage(menus, from, to, ring, filter);
  }

  lemma NothingShown(ring: seq<HistoryItem>, filter: string -> bool)
    ensures Shown([], |ring|, ring, filter)
  {
  }

  lemma ShownEmpty(rest: seq<Menu>, to: nat, ring: seq<HistoryItem>, filter: string -> bool)
    requires to <= |ring| && Shown(rest, to, ring, filter)
    ensures to < |ring| <==> rest != []
  {
    hide Matching, Entries;
  }

  ghost function EntriesShown(menus: seq<Menu>): seq<Uuid>
    reads menus
  {
    if menus == [] then [] else EntriesIn(menus[0].actions) + EntriesShown(menus[1..])
  }

  function EntriesIn(actions: seq<Action>): seq<Uuid> {
    if actions == [] then []
    else (if actions[0].Entry? then [actions[0].uuid] else []) + EntriesIn(actions[1..])
  }

  lemma {:induction false} EntriesInPage(page: seq<Uuid>, more: seq<Action>)
    requires forall a :: a in more ==> a.More?
    ensures EntriesIn(Entries(page) + more) == page
  {
    var all := Entries(page) + more;
    if page == [] {
      assert all == more;
      if more != [] {
        EntriesInPage([], more[1..]);
        assert more[0] in more;
        assert all == more && Entries([]) + more[1..] == more[1..];
        assert EntriesIn(more) == EntriesIn(more[1..]);
      }
    } else {
      EntriesInPage(page[1..], more);
      assert all[1..] == Entries(page[1..]) + more;
    }
  }

  lemma PageEntries(menus: seq<Menu>, from: nat, to: nat, ring: seq<HistoryItem>, filter: string -> bool)
    requires from <= |ring| && ShowsPage(menus, from, to, ring, filter)
    ensures EntriesIn(menus[0].actions) == Matching(ring[from..to], filter)
  {
    hide Matching, Entries;
    EntriesInPage(Matching(ring[from..to], filter), if 2 <= |menus| then [More(menus[1])] else []);
  }

  /** Together the menus show every matching item once, in history order, and there are no more menus than items. */
  lemma {:induction false} PagesShowAll(menus: seq<Menu>, from: nat, ring: seq<HistoryItem>, filter: string -> bool)
    requires from <= |ring| && Shown(menus, from, ring, filter)
    ensures EntriesShown(menus) == Matching(ring[from..], filter)
    ensures |menus| <= |ring| - from
    decreases |menus|
  {
    if from == |ring| {
      assert ring[from..] == [];
    } else {
      hide Matching, Entries;
      var to: nat :| ShowsPage(menus, from, to, ring, filter) && Shown(menus[1..], to, ring, filter);
      PageEntries(menus, from, to, ring, filter);
      hide Shown, EntriesIn;
      PagesShowAll(menus[1..], to, ring, filter);
      assert ring[from..] == ring[from..to] + ring[to..];
      MatchingConcat(ring[from..to], ring[to..], filter);
    }
  }
}
