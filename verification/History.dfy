/**
 The clipboard history as the program keeps it: items linked into a circle by uuid, a table that
 resolves uuids to items, a top and a cursor. The ghost field `ring` is the circle read from the top.
 */
module ClipboardHistory {
  import opened RingSpec

  /** Identifies an item by its content; the program uses a hash of the content. */
  type Uuid = nat

  class HistoryItem {
    const uuid: Uuid
    const text: string
    var previousUuid: Uuid
    var nextUuid: Uuid

    constructor (uuid: Uuid, text: string)
      ensures this.uuid == uuid && this.text == text
    {
      this.uuid, this.text := uuid, text;
      previousUuid, nextUuid := uuid, uuid;
    }

    method Chain(next: HistoryItem)
      modifies this`nextUuid, next`previousUuid
      ensures nextUuid == next.uuid && next.previousUuid == uuid
    {
      nextUuid := next.uuid;
      next.previousUuid := uuid;
    }

    /** Links this item between two neighbours (possibly one and the same), or to itself when it is alone. */
    method InsertBetween(prev: HistoryItem?, next: HistoryItem?)
      requires (prev == null) == (next == null)
      requires prev != this && next != this
      modifies this, prev, next
      ensures prev != null ==>
        prev.nextUuid == uuid && previousUuid == prev.uuid && nextUuid == next.uuid && next.previousUuid == uuid
      ensures prev != null && prev != next ==>
        prev.previousUuid == old(prev.previousUuid) && next.nextUuid == old(next.nextUuid)
      ensures prev == null ==> previousUuid == uuid == nextUuid
    {
      if prev != null && next != null {
        prev.Chain(this);
        Chain(next);
      } else {
        nextUuid := uuid;
        previousUuid := uuid;
      }
    }
  }

  /** Position i's neighbour on the circle of n positions. */
  function After(i: nat, n: nat): nat { if i + 1 == n then 0 else i + 1 }

  /** A position of uuid u in s. */
  ghost function Position(s: seq<HistoryItem>, u: Uuid): (p: nat)
    ensures u in Uuids(s) ==> p < |s| && s[p].uuid == u
  {
    if u in Uuids(s) then var i :| 0 <= i < |s| && s[i].uuid == u; i else 0
  }

  /** No two positions hold the same uuid: every uuid determines its position. */
  ghost predicate DistinctUuids(s: seq<HistoryItem>) {
    forall i {:trigger s[i].uuid} :: 0 <= i < |s| ==> Position(s, s[i].uuid) == i
  }

  lemma PairwiseDistinct(s: seq<HistoryItem>)
    ensures DistinctUuids(s) <==> forall i, j :: 0 <= i < j < |s| ==> s[i].uuid != s[j].uuid
  {
    if forall i, j :: 0 <= i < j < |s| ==> s[i].uuid != s[j].uuid {
      forall i | 0 <= i < |s| ensures Position(s, s[i].uuid) == i {
        assert s[i].uuid in Uuids(s);
        var p := Position(s, s[i].uuid);
        assert s[p].uuid == s[i].uuid;
      }
    }
  }

  function Before(i: nat, n: nat): nat
    requires i < n
  {
    if i == 0 then n - 1 else i - 1
  }

  /** Following next from s[0] visits s in order and returns to s[0], and previous inverts next. */
  ghost predicate Circle(s: seq<HistoryItem>)
    reads s
  {
    && (forall i {:trigger s[i].nextUuid} :: 0 <= i < |s| ==> s[i].nextUuid == s[After(i, |s|)].uuid)
    && (forall i {:trigger s[i].previousUuid} :: 0 <= i < |s| ==> s[i].previousUuid == s[Before(i, |s|)].uuid)
  }

  ghost function Uuids(s: seq<HistoryItem>): set<Uuid> {
    set i | 0 <= i < |s| :: s[i].uuid
  }

  /** The table holds exactly the items of s, each under its own uuid. */
  ghost predicate Tabled(items: map<Uuid, HistoryItem>, s: seq<HistoryItem>) {
    && |items| == |s|
    && (forall i {:trigger s[i].uuid} :: 0 <= i < |s| ==> s[i].uuid in items && items[s[i].uuid] == s[i])
  }

  lemma {:induction false} UuidsSize(s: seq<HistoryItem>)
    requires DistinctUuids(s)
    ensures |Uuids(s)| == |s|
  {
    if s != [] {
      var k := |s| - 1;
      var rest := s[..k];
      PairwiseDistinct(s);
      PairwiseDistinct(rest);
      UuidsSize(rest);
      assert Uuids(s) == Uuids(rest) + {s[k].uuid};
    }
  }

  /** The table holds nothing else: every key is the uuid of an item of the circle. */
  lemma TableCovered(items: map<Uuid, HistoryItem>, s: seq<HistoryItem>)
    requires DistinctUuids(s) && Tabled(items, s)
    ensures items.Keys == Uuids(s)
  {
    UuidsSize(s);
    SubsetOfSameSize(Uuids(s), items.Keys);
  }

  lemma {:induction false} SubsetOfSameSize<T>(a: set<T>, b: set<T>)
    requires a <= b && |a| == |b|
    ensures a == b
  {
    if a != {} {
      var x :| x in a;
      SubsetOfSameSize(a - {x}, b - {x});
    }
  }

  lemma SwapKeepsTable(items: map<Uuid, HistoryItem>, s: seq<HistoryItem>, c: nat)
    requires DistinctUuids(s) && Tabled(items, s) && c < |s|
    ensures DistinctUuids(Swapped(s, 0, c)) && Tabled(items, Swapped(s, 0, c))
  {
    var t := Swapped(s, 0, c);
    PairwiseDistinct(s);
    PairwiseDistinct(t);
  }

  /** Dropping the item at position k from the circle and from the table. */
  lemma WithoutKeepsTable(items: map<Uuid, HistoryItem>, s: seq<HistoryItem>, k: nat)
    requires DistinctUuids(s) && Tabled(items, s) && k < |s|
    ensures DistinctUuids(Without(s, k)) && Tabled(items - {s[k].uuid}, Without(s, k))
    ensures s[k].uuid !in Uuids(Without(s, k))
  {
    var t := Without(s, k);
    PairwiseDistinct(s);
    PairwiseDistinct(t);
    assert |items - {s[k].uuid}| == |items| - 1 by {
      assert (items - {s[k].uuid}).Keys == items.Keys - {s[k].uuid};
    }
  }

  /** Erasing the last item of a prefix that the table holds; its predecessor is still found. */
  lemma ErasedPrefix(items: map<Uuid, HistoryItem>, s: seq<HistoryItem>, k: nat)
    requires 2 <= k <= |s| && DistinctUuids(s[..k]) && Tabled(items, s[..k])
    ensures DistinctUuids(s[..k - 1]) && Tabled(items - {s[k - 1].uuid}, s[..k - 1])
    ensures s[k - 2].uuid in items && items[s[k - 2].uuid] == s[k - 2]
  {
    WithoutKeepsTable(items, s[..k], k - 1);
    assert Without(s[..k], k - 1) == s[..k - 1];
    assert s[..k][k - 2] == s[k - 2] && s[..k][k - 2].uuid in items;
  }

  /** Adding a new item on top of the circle and to the table. */
  lemma PushKeepsTable(items: map<Uuid, HistoryItem>, s: seq<HistoryItem>, x: HistoryItem)
    requires DistinctUuids(s) && Tabled(items, s) && x.uuid !in items
    ensures DistinctUuids([x] + s) && Tabled(items[x.uuid := x], [x] + s)
  {
    PairwiseDistinct(s);
    PairwiseDistinct([x] + s);
  }

  /** Moving the item at position k to the front. */
  lemma PromotedKeepsTable(items: map<Uuid, HistoryItem>, s: seq<HistoryItem>, k: nat)
    requires DistinctUuids(s) && Tabled(items, s) && k < |s|
    ensures DistinctUuids(Promoted(s, k)) && Tabled(items, Promoted(s, k))
  {
    WithoutKeepsTable(items, s, k);
    PushKeepsTable(items - {s[k].uuid}, Without(s, k), s[k]);
    assert (items - {s[k].uuid})[s[k].uuid := s[k]] == items;
  }

  /** One circle: the table's items, each exactly once, linked in the order s from the top. */
  ghost predicate IsRing(items: map<Uuid, HistoryItem>, top: HistoryItem?, s: seq<HistoryItem>)
    reads s
  {
    && DistinctUuids(s) && Circle(s) && Tabled(items, s)
    && (top == null <==> s == [])
    && (top != null ==> top == s[0])
  }

  class History {
    var items: map<Uuid, HistoryItem>
    var top: HistoryItem?
    var nextCycle: HistoryItem?
    var maxSize: nat
    var topIsUserSelected: bool
    ghost var ring: seq<HistoryItem>
    ghost var cursor: Option<nat>

    /** The ring itself; says nothing about the cursor. */
    ghost predicate Linked()
      reads this, ring
    {
      IsRing(items, top, ring)
    }

    /** A cursor, if there is one, is an item of the ring, and the ghost cursor is its position. */
    ghost predicate CursorLive()
      reads this
    {
      if nextCycle == null || ring == [] then cursor.None?
      else
        && cursor == Some(Position(ring, nextCycle.uuid))
        && cursor.value < |ring| && ring[cursor.value] == nextCycle
    }

    ghost predicate Valid()
      reads this, ring
    {
      Linked() && CursorLive() && 1 <= maxSize && |ring| <= maxSize
    }

    ghost function Model(): (r: Ring<HistoryItem>)
      reads this
    {
      Ring(ring, cursor)
    }

    constructor (limit: nat)
      requires 1 <= limit
      ensures Valid() && Model() == Ring([], None) && maxSize == limit && !topIsUserSelected
    {
      items, top, nextCycle, maxSize, topIsUserSelected := map[], null, null, limit, false;
      ring, cursor := [], None;
    }

    /** The table resolves the links of the item at position k to its neighbours. */
    lemma Neighbours(k: nat)
      requires Linked() && k < |ring|
      ensures ring[k].nextUuid in items && items[ring[k].nextUuid] == ring[After(k, |ring|)]
      ensures ring[k].previousUuid in items && items[ring[k].previousUuid] == ring[Before(k, |ring|)]
    {
    }

    /** The relinking that cycling in either direction ends with: the item at position c trades places with the top. */
    method ExchangeWithTop(item: HistoryItem, prev: HistoryItem, next: HistoryItem,
                           endOfHistory: HistoryItem, afterTop: HistoryItem, ghost c: nat)
      requires Linked() && 3 <= |ring| && 1 <= c < |ring| && item == ring[c]
      requires prev == (if c == 1 then item else ring[c - 1])
      requires if c + 1 == |ring| then next == item || next == ring[1] else next == ring[c + 1]
      requires endOfHistory == (if c + 1 == |ring| then top else ring[|ring| - 1])
      requires afterTop == (if c == 1 then top else ring[1])
      modifies this`top, this`ring, ring
      ensures Linked() && ring == Swapped(old(ring), 0, c)
    {
      SwapKeepsTable(items, ring, c);
      Relink(item, prev, next, endOfHistory, afterTop, c);
      top := item;
      ring := Swapped(ring, 0, c);
    }

    method Relink(item: HistoryItem, prev: HistoryItem, next: HistoryItem,
                  endOfHistory: HistoryItem, afterTop: HistoryItem, ghost c: nat)
      requires DistinctUuids(ring) && Circle(ring) && 3 <= |ring| && 1 <= c < |ring|
      requires top == ring[0] && item == ring[c]
      requires prev == (if c == 1 then item else ring[c - 1])
      requires if c + 1 == |ring| then next == item || next == ring[1] else next == ring[c + 1]
      requires endOfHistory == (if c + 1 == |ring| then top else ring[|ring| - 1])
      requires afterTop == (if c == 1 then top else ring[1])
      modifies ring
      ensures Circle(Swapped(ring, 0, c))
    {
      assert Position(ring, top.uuid) == 0 && Position(ring, item.uuid) == c;
      assert Position(ring, prev.uuid) != 0 && Position(ring, next.uuid) != 0;
      assert Position(ring, endOfHistory.uuid) != c && Position(ring, afterTop.uuid) != c;
      top.InsertBetween(prev, next);
      item.InsertBetween(endOfHistory, afterTop);
      ghost var s, n := Swapped(ring, 0, c), |ring|;
      forall i | 0 <= i < n ensures s[i].nextUuid == s[After(i, n)].uuid {
        assert ring[i].uuid == ring[i].uuid;
      }
      forall i | 0 <= i < n ensures s[i].previousUuid == s[Before(i, n)].uuid {
        assert ring[i].uuid == ring[i].uuid;
      }
    }

    method CycleNext()
      requires Valid()
      modifies this, ring
      ensures Valid() && Model() == old(Model()).CycleNext()
      ensures maxSize == old(maxSize) && items == old(items) && topIsUserSelected == old(topIsUserSelected)
    {
      if top != null && nextCycle != null && nextCycle != top {
        Neighbours(cursor.value);
        var prev := items[nextCycle.previousUuid];
        var next := items[nextCycle.nextUuid];
        if prev == next {
          top := nextCycle;
          SwapKeepsTable(items, ring, 1);
          ring, cursor := Swapped(ring, 0, 1), Some(0);
          assert ring[0].uuid == nextCycle.uuid;
        } else {
          CycleNextAmongMany(prev, next);
        }
      }
    }

    method CycleNextAmongMany(prev: HistoryItem, next: HistoryItem)
      requires Valid() && 3 <= |ring| && cursor.Some? && cursor.value != 0
      requires prev == ring[cursor.value - 1] && next == ring[After(cursor.value, |ring|)]
      modifies this, ring
      ensures Valid() && Model() == old(Model()).CycleNext()
      ensures maxSize == old(maxSize) && items == old(items) && topIsUserSelected == old(topIsUserSelected)
    {
      ghost var c := cursor.value;
      Neighbours(0);
      var endOfHistory := items[top.previousUuid];
      var afterTop := items[top.nextUuid];
      var before, after := prev, next;
      if prev == top {
        before := nextCycle;
        afterTop := top;
      } else if next == top {
        after := nextCycle;
        endOfHistory := top;
      }
      ExchangeWithTop(nextCycle, before, after, endOfHistory, afterTop, c);
      nextCycle := after;
      cursor := Some(After(c, |ring|));
      assert ring[cursor.value].uuid == nextCycle.uuid;
    }

    method CyclePrev()
      requires Valid()
      modifies this, ring
      ensures Valid() && Model() == old(Model()).CyclePrev()
      ensures maxSize == old(maxSize) && items == old(items) && topIsUserSelected == old(topIsUserSelected)
    {
      if top != null && nextCycle != null {
        Neighbours(cursor.value);
        var prev := items[nextCycle.previousUuid];
        if prev == top {
          assert Position(ring, prev.uuid) == 0;
          return;
        }
        CyclePrevTo(prev);
      }
    }

    method CyclePrevTo(prev: HistoryItem)
      requires Valid() && 2 <= |ring| && cursor.Some? && Model().PrevPosition() != 0
      requires prev == ring[Model().PrevPosition()]
      modifies this, ring
      ensures Valid() && Model() == old(Model()).CyclePrev()
      ensures maxSize == old(maxSize) && items == old(items) && topIsUserSelected == old(topIsUserSelected)
    {
      ghost var p := Model().PrevPosition();
      assert Position(ring, ring[p].uuid) == p;
      Neighbours(p);
      Neighbours(0);
      var prevprev := items[prev.previousUuid];
      var afterTop := items[top.nextUuid];
      if nextCycle == prevprev {
        assert |ring| == 2 && p == 1;
        top := afterTop;
        SwapKeepsTable(items, ring, 1);
        ring, cursor := Swapped(ring, 0, 1), Some(1);
        assert ring[1].uuid == nextCycle.uuid;
      } else {
        CyclePrevAmongMany(prev, prevprev, afterTop, p);
      }
    }

    method CyclePrevAmongMany(prev: HistoryItem, prevprev: HistoryItem, afterTop: HistoryItem, ghost p: nat)
      requires Valid() && 3 <= |ring| && cursor.Some? && p == Model().PrevPosition() != 0
      requires prev == ring[p] && prevprev == ring[p - 1] && afterTop == ring[1]
      modifies this, ring
      ensures Valid() && Model() == old(Model()).CyclePrev()
      ensures maxSize == old(maxSize) && items == old(items) && topIsUserSelected == old(topIsUserSelected)
    {
      assert Position(ring, ring[p].uuid) == p;
      assert Position(ring, ring[p - 1].uuid) == p - 1;
      Neighbours(0);
      var endOfHistory := items[top.previousUuid];
      var before, after, last := prevprev, afterTop, top;
      if prevprev == top {
        before := prev;
        after := top;
      } else if nextCycle == top {
        nextCycle := afterTop;
        endOfHistory := top;
      }
      ExchangeWithTop(prev, before, nextCycle, endOfHistory, after, p);
      nextCycle := last;
      cursor := Some(p);
      assert ring[p].uuid == nextCycle.uuid;
    }

    method NextInCycle() returns (r: HistoryItem?)
      requires Valid()
      ensures ring != [] ==> r == (if Model().NextInCycle().Some? then Model().NextInCycle().value else null)
      ensures ring == [] ==> r == nextCycle
    {
      r := if nextCycle != top then nextCycle else null;
      assert ring != [] && nextCycle == top ==> Position(ring, nextCycle.uuid) == 0 == Position(ring, ring[0].uuid);
    }

    method PrevInCycle() returns (r: HistoryItem?)
      requires Valid()
      ensures r == (if Model().PrevInCycle().Some? then Model().PrevInCycle().value else null)
    {
      if nextCycle != null {
        if cursor.Some? {
          Neighbours(cursor.value);
          assert Position(ring, items[nextCycle.previousUuid].uuid) == Model().PrevPosition() && Position(ring, top.uuid) == 0;
        }
        // an unknown uuid resolves to nothing
        var prev := if nextCycle.previousUuid in items then items[nextCycle.previousUuid] else null;
        if prev != top {
          return prev;
        }
      }
      return null;
    }

    method Find(uuid: Uuid) returns (r: HistoryItem?)
      requires Linked()
      ensures r == null <==> uuid !in items
      ensures r != null ==> r in ring && r.uuid == uuid && r == items[uuid] == ring[Position(ring, uuid)]
    {
      r := if uuid in items then items[uuid] else null;
      TableCovered(items, ring);
    }

    /** Puts an item above the current top; `item` must not be linked yet. */
    method LinkOnTop(item: HistoryItem)
      requires Linked() && item.uuid !in items
      modifies item, ring
      ensures Circle([item] + ring)
      ensures item !in ring
    {
      if top == null {
        item.InsertBetween(null, null);
      } else {
        LinkAbove(item, ring);
      }
    }

    /** Takes the item at position k out of the circle. */
    method Unlink(item: HistoryItem, ghost k: nat)
      requires k < |ring| && ring[k] == item && IsRing(items, ring[0], ring)
      modifies ring
      ensures 2 <= |ring| ==> Circle(Without(ring, k))
    {
      assert ring[After(k, |ring|)].uuid in items && ring[Before(k, |ring|)].uuid in items;
      assert Position(ring, ring[Before(k, |ring|)].uuid) == Before(k, |ring|);
      assert Position(ring, ring[After(k, |ring|)].uuid) == After(k, |ring|);
      items[item.previousUuid].Chain(items[item.nextUuid]);
      if 2 <= |ring| {
        BridgedCircle(ring, k);
      }
    }

    method MoveToTop(uuid: Uuid)
      requires Valid()
      modifies this, ring
      ensures Valid() && items == old(items) && maxSize == old(maxSize)
      ensures uuid !in items ==> Model() == old(Model()) && topIsUserSelected == old(topIsUserSelected)
      ensures uuid in items ==> var k := Position(old(ring), uuid);
        && k < |old(ring)| && old(ring)[k] == items[uuid]
        && Model() == old(Model()).MoveToTop(k)
        && topIsUserSelected == (old(topIsUserSelected) || k != 0)
    {
      TableCovered(items, ring);
      if uuid !in items {
        return;
      }
      var item := items[uuid];
      ghost var k := Position(ring, uuid);
      if item == top {
        assert Position(ring, item.uuid) == 0;
        return;
      }
      topIsUserSelected := true;
      Promote(item, k);
    }

    method Promote(item: HistoryItem, ghost k: nat)
      requires Valid() && 1 <= k < |ring| && ring[k] == item
      modifies this`top, this`nextCycle, this`ring, this`cursor, ring
      ensures Valid() && Model() == old(Model()).MoveToTop(k)
    {
      ghost var rest := Without(ring, k);
      PromotedKeepsTable(items, ring, k);
      WithoutKeepsTable(items, ring, k);
      nextCycle := top;
      Unlink(item, k);
      assert rest[0] == top && rest[|rest| - 1].uuid == rest[|rest| - 1].uuid;
      LinkAbove(item, rest);
      top := item;
      ring, cursor := Promoted(ring, k), Some(1);
      assert ring[1].uuid == nextCycle.uuid;
    }

    /** Relinks an item that was taken out of the circle on top of what remains. */
    method LinkAbove(item: HistoryItem, ghost s: seq<HistoryItem>)
      requires s != [] && top == s[0] && item !in s
      requires DistinctUuids(s) && Circle(s)
      requires forall i {:trigger s[i].uuid} :: 0 <= i < |s| ==> s[i].uuid in items && items[s[i].uuid] == s[i]
      modifies item, s
      ensures Circle([item] + s)
    {
      item.InsertBetween(items[top.previousUuid], top);
      ghost var t := [item] + s;
      forall i | 0 <= i < |t| ensures t[i].nextUuid == t[After(i, |t|)].uuid {
        assert t[i].uuid == t[i].uuid;
      }
      forall i | 0 <= i < |t| ensures t[i].previousUuid == t[Before(i, |t|)].uuid {
        assert t[i].uuid == t[i].uuid;
      }
    }

    /** Keeps only the newest maxSize items. */
    method Trim()
      requires Linked() && 1 <= maxSize
      modifies this`items, this`nextCycle, this`ring, ring
      ensures Linked() && ring == Newest(old(ring), maxSize)
      ensures nextCycle == if maxSize == 1 < |old(ring)| then null else old(nextCycle)
    {
      var excess := |items| - maxSize;
      if excess <= 0 || top == null {
        return;
      }
      var bottom := EraseOldest(excess);
      CloseCircle(bottom, maxSize);
      if |items| <= 1 {
        nextCycle := null;
      }
    }

    method CloseCircle(bottom: HistoryItem, ghost k: nat)
      requires 1 <= k < |ring| && top == ring[0] && bottom == ring[k - 1]
      requires Circle(ring) && DistinctUuids(ring[..k]) && Tabled(items, ring[..k])
      modifies this`ring, ring
      ensures Linked() && ring == old(ring)[..k]
    {
      ghost var s := ring[..k];
      assert s[0] == ring[0] && s[k - 1] == ring[k - 1];
      assert Position(s, s[0].uuid) == 0 && Position(s, s[k - 1].uuid) == k - 1;
      bottom.Chain(top);
      forall i | 0 <= i < k
        ensures s[i].nextUuid == s[After(i, k)].uuid && s[i].previousUuid == s[Before(i, k)].uuid
      {
        assert s[i] == ring[i] && Position(s, s[i].uuid) == i;
      }
      ring := s;
    }

    /** Walks back from the bottom, erasing the oldest items from the table. */
    method EraseOldest(excess: nat) returns (bottom: HistoryItem)
      requires Linked() && excess < |ring|
      modifies this`items
      ensures DistinctUuids(ring[..|ring| - excess]) && Tabled(items, ring[..|ring| - excess])
      ensures bottom == ring[|ring| - excess - 1]
    {
      Neighbours(0);
      bottom := items[top.previousUuid];
      var i := excess;
      ghost var k := |ring|;
      assert ring[..k] == ring;
      while i != 0
        invariant 0 <= i <= excess && k == |ring| - excess + i
        invariant DistinctUuids(ring[..k]) && Tabled(items, ring[..k])
        invariant bottom == ring[k - 1]
      {
        i := i - 1;
        var it := bottom;
        ErasedPrefix(items, ring, k);
        bottom := items[bottom.previousUuid];
        items := items - {it.uuid};
        k := k - 1;
      }
    }

    method ForceInsert(item: HistoryItem?)
      requires Valid()
      modifies this, ring, item
      ensures Valid() && maxSize == old(maxSize) && topIsUserSelected == old(topIsUserSelected)
      ensures item == null || item.uuid in old(items) ==> Model() == old(Model())
      ensures item != null && item.uuid !in old(items) ==> Model() == old(Model()).Insert(item, maxSize)
    {
      if item == null {
        return;
      }
      if item.uuid in items {
        return;
      }
      nextCycle := top;
      PushOnTop(item);
      Trim();
      cursor := if nextCycle == null then None else Some(1);
      if nextCycle != null {
        assert ring[1].uuid == nextCycle.uuid;
      }
    }

    method PushOnTop(item: HistoryItem)
      requires Linked() && item.uuid !in items
      modifies this`items, this`top, this`ring, item, ring
      ensures Linked() && ring == [item] + old(ring)
    {
      PushKeepsTable(items, ring, item);
      LinkOnTop(item);
      items := items[item.uuid := item];
      top := item;
      ring := [item] + ring;
    }

    method Insert(item: HistoryItem?)
      requires Valid()
      modifies this, ring, item
      ensures Valid() && maxSize == old(maxSize)
      ensures item == null ==> Model() == old(Model()) && topIsUserSelected == old(topIsUserSelected)
      ensures item != null && item.uuid !in old(items) ==>
        Model() == old(Model()).Insert(item, maxSize) && !topIsUserSelected
      ensures item != null && item.uuid in old(items) ==> var k := Position(old(ring), item.uuid);
        && k < |old(ring)| && old(ring)[k] == old(items)[item.uuid]
        && Model() == old(Model()).MoveToTop(k) && topIsUserSelected == (k != 0)
    {
      if item == null {
        return;
      }
      topIsUserSelected := false;
      var existing := Find(item.uuid);
      if existing != null {
        if existing == top {
          assert Position(ring, top.uuid) == 0;
          return;
        }
        MoveToTop(existing.uuid);
      } else {
        ForceInsert(item);
      }
    }

    method SlotClear()
      requires Valid()
      modifies this
      ensures Valid() && Model() == Ring([], None) && maxSize == old(maxSize) && items == map[]
      ensures topIsUserSelected == old(topIsUserSelected) && nextCycle == old(nextCycle)
    {
      items := map[];
      top := null;
      ring, cursor := [], None;
    }

    /** Shrinking can drop the very item the cursor is on; the ring itself stays sound. */
    method SetMaxSize(limit: nat)
      requires Valid() && 1 <= limit
      modifies this, ring
      ensures Linked() && ring == Newest(old(ring), limit) && maxSize == limit
      ensures topIsUserSelected == old(topIsUserSelected)
      ensures limit == 1 < |old(ring)| ==> Valid() && nextCycle == null
      ensures limit != 1 || |old(ring)| == 1 || ring == [] ==> nextCycle == old(nextCycle)
      ensures Valid() <==> limit == 1 || old(cursor).None? || old(cursor).value < |ring|
      ensures Valid() && limit != 1 ==> Model() == Ring(ring, old(cursor))
    {
      maxSize := limit;
      Trim();
      if |old(ring)| > limit {
        if nextCycle == null {
          cursor := None;
        } else if cursor.Some? {
          assert old(ring)[cursor.value].uuid == nextCycle.uuid;
        }
      }
    }

    /** Removal keeps the ring unless the item is the only one, and the cursor unless it is the item. */
    method Remove(newItem: HistoryItem?)
      requires Valid()
      modifies this, ring
      ensures maxSize == old(maxSize) && topIsUserSelected == old(topIsUserSelected)
      ensures newItem == null || newItem.uuid !in old(items) ==> Model() == old(Model()) && Valid()
      ensures newItem != null && newItem.uuid in old(items) ==> var k := Position(old(ring), newItem.uuid);
        && k < |old(ring)|
        && items == old(items) - {newItem.uuid}
        && nextCycle == old(nextCycle)
        && (Linked() <==> |old(ring)| != 1)
        && (|old(ring)| != 1 ==> ring == Without(old(ring), k))
        && (|old(ring)| == 1 ==> items == map[] && top == old(top) != null)
        && (Valid() <==> |old(ring)| != 1 && old(cursor) != Some(k))
        && (Valid() ==> Model() == old(Model()).Remove(k))
    {
      if newItem == null {
        return;
      }
      if newItem.uuid !in items {
        return;
      }
      TableCovered(items, ring);
      var it := items[newItem.uuid];
      ghost var k := Position(ring, newItem.uuid);
      Erase(it, k);
      cursor := CursorWithout(cursor, k);
      if cursor.Some? && ring != [] {
        assert old(ring)[old(cursor).value].uuid == nextCycle.uuid;
        assert ring[cursor.value].uuid == nextCycle.uuid;
      }
    }

    method Erase(it: HistoryItem, ghost k: nat)
      requires Linked() && k < |ring| && it == ring[k]
      modifies this`items, this`top, this`ring, ring
      ensures items == old(items) - {it.uuid}
      ensures |old(ring)| == 1 ==> items == map[] && top == old(top) != null && ring == old(ring)
      ensures |old(ring)| != 1 ==> Linked() && ring == Without(old(ring), k)
    {
      Neighbours(0);
      WithoutKeepsTable(items, ring, k);
      if it == top {
        assert Position(ring, top.uuid) == 0;
        top := items[top.nextUuid];
      }
      Unlink(it, k);
      items := items - {it.uuid};
      if |ring| == 1 {
        assert items.Keys == {};
      } else {
        ring := Without(ring, k);
      }
    }

    static ghost function CursorWithout(c: Option<nat>, k: nat): Option<nat> {
      if c == Some(k) then None
      else if c.Some? && c.value > k then Some(c.value - 1)
      else c
    }
  }

  /** A circle whose two links around position k point past it is, without that position, a circle again. */
  lemma BridgedCircle(s: seq<HistoryItem>, k: nat)
    requires k < |s| && 2 <= |s|
    requires s[Before(k, |s|)].nextUuid == s[After(k, |s|)].uuid
    requires s[After(k, |s|)].previousUuid == s[Before(k, |s|)].uuid
    requires forall i {:trigger s[i].nextUuid} :: 0 <= i < |s| && i != Before(k, |s|) ==>
      s[i].nextUuid == s[After(i, |s|)].uuid
    requires forall i {:trigger s[i].previousUuid} :: 0 <= i < |s| && i != After(k, |s|) ==>
      s[i].previousUuid == s[Before(i, |s|)].uuid
    ensures Circle(Without(s, k))
  {
    var t, n := Without(s, k), |s|;
    forall i | 0 <= i < |t|
      ensures t[i].nextUuid == t[After(i, |t|)].uuid && t[i].previousUuid == t[Before(i, |t|)].uuid
    {
      var j := if i < k then i else i + 1;
      assert t[i] == s[j];
      assert t[After(i, |t|)] == s[if j == Before(k, n) then After(k, n) else After(j, n)];
      assert t[Before(i, |t|)] == s[if j == After(k, n) then Before(k, n) else Before(j, n)];
    }
  }
}
