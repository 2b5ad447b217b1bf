/**
 Whole runs of the clipboard history: any sequence of user actions, performed on the linked ring,
 has the effect of the same sequence on the plain list of uuids.
 */
module HistoryRuns {
  import opened RingSpec
  import opened ClipboardHistory

  datatype Op =
    | Insert(uuid: Uuid, text: string)
    | MoveToTop(uuid: Uuid)
    | Remove(uuid: Uuid)
    | Clear
    | SetMaxSize(limit: nat)
    | CycleNext
    | CyclePrev

  datatype State = State(ring: Ring<Uuid>, limit: nat) {
    ghost predicate WellFormed() {
      && 1 <= limit && |ring.items| <= limit && ring.Live()
      && Distinct(ring.items)
    }

    /** What the program demands of its callers: the size limit is positive, and the cursor's item is not dropped. */
    predicate Allows(op: Op) {
      match op
      case Remove(u) => u in ring.items ==> 2 <= |ring.items| && ring.cursor != Some(IndexOf(ring.items, u))
      case SetMaxSize(limit) => 1 <= limit && (limit == 1 || ring.cursor.None? || ring.cursor.value < limit)
      case _ => true
    }

    function Step(op: Op): State
      requires WellFormed() && Allows(op)
    {
      match op
      case Insert(u, _) =>
        if u in ring.items then this.(ring := ring.MoveToTop(IndexOf(ring.items, u)))
        else this.(ring := ring.Insert(u, limit))
      case MoveToTop(u) =>
        if u in ring.items then this.(ring := ring.MoveToTop(IndexOf(ring.items, u))) else this
      case Remove(u) =>
        if u in ring.items then this.(ring := ring.Remove(IndexOf(ring.items, u))) else this
      case Clear => this.(ring := Ring([], None))
      case SetMaxSize(m) =>
        State(Ring(Newest(ring.items, m), if m == 1 < |ring.items| then None else ring.cursor), m)
      case CycleNext => this.(ring := ring.CycleNext())
      case CyclePrev => this.(ring := ring.CyclePrev())
    }
  }

  ghost predicate Distinct(s: seq<Uuid>) {
    forall i, j :: 0 <= i < j < |s| ==> s[i] != s[j]
  }

  lemma StepKeepsWellFormed(s: State, op: Op)
    requires s.WellFormed() && s.Allows(op)
    ensures s.Step(op).WellFormed()
  {
    var items := s.ring.items;
    match op
    case Insert(u, _) =>
      if u in items { PromotedDistinct(items, IndexOf(items, u)); }
      else { assert Distinct([u] + items); NewestDistinct([u] + items, s.limit); }
    case MoveToTop(u) => if u in items { PromotedDistinct(items, IndexOf(items, u)); }
    case Remove(u) => if u in items { WithoutDistinct(items, IndexOf(items, u)); }
    case Clear =>
    case SetMaxSize(m) => NewestDistinct(items, m);
    case CycleNext =>
      if s.ring.CycleNext() != s.ring { SwappedDistinct(items, s.ring.cursor.value); }
    case CyclePrev =>
      if s.ring.CyclePrev() != s.ring { SwappedDistinct(items, s.ring.PrevPosition()); }
  }

  lemma PromotedDistinct(s: seq<Uuid>, k: nat)
    requires Distinct(s) && k < |s|
    ensures Distinct(Promoted(s, k)) && |Promoted(s, k)| == |s|
  {
    WithoutDistinct(s, k);
  }

  lemma WithoutDistinct(s: seq<Uuid>, k: nat)
    requires Distinct(s) && k < |s|
    ensures Distinct(Without(s, k)) && s[k] !in Without(s, k)
  {
  }

  lemma NewestDistinct(s: seq<Uuid>, limit: nat)
    requires Distinct(s)
    ensures Distinct(Newest(s, limit))
  {
  }

  lemma SwappedDistinct(s: seq<Uuid>, k: nat)
    requires Distinct(s) && k < |s|
    ensures Distinct(Swapped(s, 0, k))
  {
  }

  function IndexOf(s: seq<Uuid>, u: Uuid): (k: nat)
    requires u in s
    ensures k < |s| && s[k] == u
  {
    if s[0] == u then 0 else 1 + IndexOf(s[1..], u)
  }

  /** Every action of the run is one its state allows. */
  ghost predicate Allowed(s: State, ops: seq<Op>)
    requires s.WellFormed()
    decreases |ops|
  {
    ops == [] || (s.Allows(ops[0]) && (StepKeepsWellFormed(s, ops[0]); Allowed(s.Step(ops[0]), ops[1..])))
  }

  ghost function Run(s: State, ops: seq<Op>): (t: State)
    requires s.WellFormed() && Allowed(s, ops)
    ensures t.WellFormed()
    decreases |ops|
  {
    if ops == [] then s else
      StepKeepsWellFormed(s, ops[0]);
      Run(s.Step(ops[0]), ops[1..])
  }

  ghost function UuidsIn(s: seq<HistoryItem>): (r: seq<Uuid>)
    ensures |r| == |s| && forall i :: 0 <= i < |s| ==> r[i] == s[i].uuid
  {
    seq(|s|, i requires 0 <= i < |s| => s[i].uuid)
  }

  ghost function UuidRing(r: Ring<HistoryItem>): Ring<Uuid> {
    Ring(UuidsIn(r.items), r.cursor)
  }

  ghost function StateOf(h: History): State
    reads h
  {
    State(UuidRing(h.Model()), h.maxSize)
  }

  lemma StateIsWellFormed(h: History)
    requires h.Valid()
    ensures StateOf(h).WellFormed()
  {
    PairwiseDistinct(h.ring);
  }

  /** Looking a uuid up in the table finds the item at that uuid's place in the list. */
  lemma LookupIsIndex(h: History, u: Uuid)
    requires h.Valid()
    ensures u in h.items <==> u in UuidsIn(h.ring)
    ensures u in h.items ==> Position(h.ring, u) == IndexOf(UuidsIn(h.ring), u)
  {
    TableCovered(h.items, h.ring);
    if u in h.items {
      assert UuidsIn(h.ring)[Position(h.ring, u)] == u;
      assert h.ring[IndexOf(UuidsIn(h.ring), u)].uuid == u;
    }
  }

  lemma CyclingCommutes(r: Ring<HistoryItem>)
    requires r.Live()
    ensures UuidRing(r.CycleNext()) == UuidRing(r).CycleNext()
    ensures UuidRing(r.CyclePrev()) == UuidRing(r).CyclePrev()
  {
    if r.cursor.Some? {
      assert UuidsIn(Swapped(r.items, 0, r.cursor.value)) == Swapped(UuidsIn(r.items), 0, r.cursor.value);
      assert UuidsIn(Swapped(r.items, 0, r.PrevPosition())) == Swapped(UuidsIn(r.items), 0, r.PrevPosition());
    }
  }

  lemma MoveToTopCommutes(r: Ring<HistoryItem>, k: nat)
    requires k < |r.items|
    ensures UuidRing(r.MoveToTop(k)) == UuidRing(r).MoveToTop(k)
  {
    assert UuidsIn(Promoted(r.items, k)) == Promoted(UuidsIn(r.items), k);
  }

  lemma RemoveCommutes(r: Ring<HistoryItem>, k: nat)
    requires k < |r.items| && r.cursor != Some(k)
    ensures UuidRing(r.Remove(k)) == UuidRing(r).Remove(k)
  {
    assert UuidsIn(Without(r.items, k)) == Without(UuidsIn(r.items), k);
  }

  lemma InsertCommutes(r: Ring<HistoryItem>, x: HistoryItem, limit: nat)
    requires 1 <= limit
    ensures UuidRing(r.Insert(x, limit)) == UuidRing(r).Insert(x.uuid, limit)
  {
    assert UuidsIn([x] + r.items) == [x.uuid] + UuidsIn(r.items);
    assert UuidsIn(Newest([x] + r.items, limit)) == Newest([x.uuid] + UuidsIn(r.items), limit);
  }

  /** Every action on the linked ring is the same action on the list of uuids. */
  method Perform(h: History, op: Op)
    requires h.Valid() && StateOf(h).Allows(op)
    modifies h, h.ring
    ensures old(StateOf(h)).WellFormed()
    ensures h.Valid() && StateOf(h) == old(StateOf(h)).Step(op)
    ensures forall k :: 0 <= k < |h.ring| ==> h.ring[k] in old(h.ring) || fresh(h.ring[k])
  {
    StateIsWellFormed(h);
    match op
    case Insert(u, text) => InsertNew(h, u, text);
    case MoveToTop(u) => MoveToTopByUuid(h, u);
    case Remove(u) => RemoveByUuid(h, u);
    case Clear => h.SlotClear();
    case SetMaxSize(m) => Resize(h, m);
    case CycleNext => Cycle(h, op);
    case CyclePrev => Cycle(h, op);
  }

  method Cycle(h: History, op: Op)
    requires h.Valid() && StateOf(h).WellFormed() && StateOf(h).Allows(op) && (op.CycleNext? || op.CyclePrev?)
    modifies h, h.ring
    ensures h.Valid() && StateOf(h) == old(StateOf(h)).Step(op)
    ensures forall k :: 0 <= k < |h.ring| ==> h.ring[k] in old(h.ring)
  {
    CyclingCommutes(h.Model());
    if op.CycleNext? { h.CycleNext(); } else { h.CyclePrev(); }
  }

  method Resize(h: History, m: nat)
    requires h.Valid() && StateOf(h).WellFormed() && StateOf(h).Allows(SetMaxSize(m))
    modifies h, h.ring
    ensures h.Valid() && StateOf(h) == old(StateOf(h)).Step(SetMaxSize(m))
    ensures forall k :: 0 <= k < |h.ring| ==> h.ring[k] in old(h.ring)
  {
    assert UuidsIn(Newest(h.ring, m)) == Newest(UuidsIn(h.ring), m);
    h.SetMaxSize(m);
  }

  method InsertNew(h: History, u: Uuid, text: string)
    requires h.Valid() && StateOf(h).WellFormed()
    modifies h, h.ring
    ensures h.Valid() && StateOf(h) == old(StateOf(h)).Step(Insert(u, text))
    ensures forall k :: 0 <= k < |h.ring| ==> h.ring[k] in old(h.ring) || fresh(h.ring[k])
  {
    var item := new HistoryItem(u, text);
    InsertItem(h, item, text);
  }

  method InsertItem(h: History, item: HistoryItem, ghost text: string)
    requires h.Valid() && StateOf(h).WellFormed()
    modifies h, h.ring, item
    ensures h.Valid() && StateOf(h) == old(StateOf(h)).Step(Insert(item.uuid, text))
    ensures forall k :: 0 <= k < |h.ring| ==> h.ring[k] in old(h.ring) || h.ring[k] == item
  {
    LookupIsIndex(h, item.uuid);
    InsertCommutes(h.Model(), item, h.maxSize);
    if item.uuid in h.items { MoveToTopCommutes(h.Model(), Position(h.ring, item.uuid)); }
    h.Insert(item);
  }

  method MoveToTopByUuid(h: History, u: Uuid)
    requires h.Valid() && StateOf(h).WellFormed()
    modifies h, h.ring
    ensures h.Valid() && StateOf(h) == old(StateOf(h)).Step(MoveToTop(u))
    ensures forall k :: 0 <= k < |h.ring| ==> h.ring[k] in old(h.ring)
  {
    LookupIsIndex(h, u);
    if u in h.items { MoveToTopCommutes(h.Model(), Position(h.ring, u)); }
    h.MoveToTop(u);
  }

  method RemoveByUuid(h: History, u: Uuid)
    requires h.Valid() && StateOf(h).WellFormed() && StateOf(h).Allows(Remove(u))
    modifies h, h.ring
    ensures h.Valid() && StateOf(h) == old(StateOf(h)).Step(Remove(u))
    ensures forall k :: 0 <= k < |h.ring| ==> h.ring[k] in old(h.ring)
  {
    LookupIsIndex(h, u);
    var item := h.Find(u);
    if u in h.items { RemoveCommutes(h.Model(), Position(h.ring, u)); }
    h.Remove(item);
  }

  /** A whole run on the linked ring. */
  method PerformAll(h: History, ops: seq<Op>)
    requires h.Valid() && StateOf(h).WellFormed() && Allowed(StateOf(h), ops)
    modifies h, h.ring
    ensures h.Valid() && StateOf(h) == Run(old(StateOf(h)), ops)
    ensures forall k :: 0 <= k < |h.ring| ==> h.ring[k] in old(h.ring) || fresh(h.ring[k])
    decreases |ops|
  {
    if ops != [] {
      Perform(h, ops[0]);
      StateIsWellFormed(h);
      PerformAll(h, ops[1..]);
    }
  }

  /** Editing or replacing an item removes it without asking whether it is the only one. If it is, the top is left
      behind although the table is empty: the next insertion looks up the top's neighbour, which is not there. */
  method RemoveOnly(h: History)
    requires h.Valid() && |h.ring| == 1
    modifies h, h.ring
    ensures h.items == map[] && h.top == old(h.top) && h.top != null && h.top.previousUuid !in h.items && !h.Valid()
  {
    assert Position(h.ring, h.top.uuid) == 0;
    h.Remove(h.top);
  }

  function Copies(us: seq<Uuid>): (ops: seq<Op>)
    ensures |ops| == |us| && forall i :: 0 <= i < |us| ==> ops[i] == Insert(us[i], "")
  {
    seq(|us|, i requires 0 <= i < |us| => Insert(us[i], ""))
  }

  /** The distinct uuids of us, most recently copied first. */
  ghost function MostRecent(us: seq<Uuid>): (r: seq<Uuid>)
    ensures Distinct(r)
  {
    if us == [] then [] else
      var u, older := us[|us| - 1], MostRecent(us[..|us| - 1]);
      if u in older then WithoutDistinct(older, IndexOf(older, u)); Promoted(older, IndexOf(older, u))
      else [u] + older
  }

  lemma {:induction false} MostRecentHasAll(us: seq<Uuid>)
    ensures forall u :: u in MostRecent(us) <==> u in us
  {
    if us != [] {
      var last, before := us[|us| - 1], us[..|us| - 1];
      MostRecentHasAll(before);
      var older := MostRecent(before);
      assert us == before + [last];
      if last in older {
        var k := IndexOf(older, last);
        assert older == older[..k] + [last] + older[k + 1..];
      }
    }
  }

  lemma {:induction false} RunSnoc(s: State, ops: seq<Op>, op: Op)
    requires s.WellFormed() && Allowed(s, ops) && Run(s, ops).Allows(op)
    ensures Allowed(s, ops + [op]) && Run(s, ops + [op]) == Run(s, ops).Step(op)
    decreases |ops|
  {
    StepKeepsWellFormed(Run(s, ops), op);
    if ops == [] {
      assert ops + [op] == [op];
    } else {
      StepKeepsWellFormed(s, ops[0]);
      RunSnoc(s.Step(ops[0]), ops[1..], op);
      assert (ops + [op])[1..] == ops[1..] + [op];
    }
  }

  /** After any sequence of copies the history is exactly the most recently copied distinct contents. */
  lemma {:induction false} HistoryIsMostRecent(us: seq<Uuid>, limit: nat)
    requires 1 <= limit
    ensures Allowed(State(Ring([], None), limit), Copies(us))
    ensures Run(State(Ring([], None), limit), Copies(us)).ring.items == Newest(MostRecent(us), limit)
    ensures Run(State(Ring([], None), limit), Copies(us)).limit == limit
  {
    if us != [] {
      var start, before, u := State(Ring([], None), limit), us[..|us| - 1], us[|us| - 1];
      HistoryIsMostRecent(before, limit);
      RunSnoc(start, Copies(before), Insert(u, ""));
      assert Copies(us) == Copies(before) + [Insert(u, "")];
      StepInsert(Run(start, Copies(before)), u);
      CopyRefreshes(MostRecent(before), u, limit);
    }
  }

  lemma StepInsert(s: State, u: Uuid)
    requires s.WellFormed()
    ensures s.Step(Insert(u, "")).limit == s.limit
    ensures s.Step(Insert(u, "")).ring.items ==
      if u in s.ring.items then Promoted(s.ring.items, IndexOf(s.ring.items, u))
      else Newest([u] + s.ring.items, s.limit)
  {
    if u in s.ring.items && IndexOf(s.ring.items, u) == 0 {
      assert Promoted(s.ring.items, 0) == s.ring.items;
    }
  }

  lemma {:induction false} IndexBeyond(a: seq<Uuid>, b: seq<Uuid>, u: Uuid)
    requires u !in a && u in b
    ensures IndexOf(a + b, u) >= |a|
  {
    if a != [] {
      assert (a + b)[1..] == a[1..] + b;
      IndexBeyond(a[1..], b, u);
    }
  }

  lemma CopyRefreshes(older: seq<Uuid>, u: Uuid, limit: nat)
    requires Distinct(older) && 1 <= limit
    ensures var kept := Newest(older, limit);
      Newest(if u in older then Promoted(older, IndexOf(older, u)) else [u] + older, limit)
      == if u in kept then Promoted(kept, IndexOf(kept, u)) else Newest([u] + kept, limit)
  {
    hide IndexOf, Distinct;
    var kept := Newest(older, limit);
    var rest := older[|kept|..];
    assert older == kept + rest;
    if u in kept {
      IndexWithin(kept, rest, u);
      PromotedWithin(kept, rest, IndexOf(kept, u));
    } else if u in older {
      assert u in rest;
      IndexBeyond(kept, rest, u);
      PromotedBeyond(kept, rest, IndexOf(older, u));
    }
  }

  lemma {:induction false} IndexWithin(a: seq<Uuid>, b: seq<Uuid>, u: Uuid)
    requires u in a
    ensures IndexOf(a + b, u) == IndexOf(a, u)
  {
    if a[0] != u {
      assert (a + b)[1..] == a[1..] + b;
      IndexWithin(a[1..], b, u);
    }
  }

  lemma PromotedWithin(a: seq<Uuid>, b: seq<Uuid>, k: nat)
    requires k < |a|
    ensures Promoted(a + b, k) == Promoted(a, k) + b
  {
  }

  lemma PromotedBeyond(a: seq<Uuid>, b: seq<Uuid>, k: nat)
    requires |a| <= k < |a + b|
    ensures Promoted(a + b, k)[..|a|] == ([b[k - |a|]] + a)[..|a|]
  {
  }
}
