/**
 The clipboard history as a value: the items from newest to oldest, and the position of the
 cycling cursor. Every method of the linked ring in History.dfy is specified by one of these
 functions; the lemmas say what cycling through the history means.
 */
module RingSpec {

  datatype Option<+T> = None | Some(value: T)

  /** The cursor is a position in items; position 0 (the top itself) means that cycling is at its end. */
  datatype Ring<T> = Ring(items: seq<T>, cursor: Option<nat>) {

    ghost predicate Live() {
      cursor.Some? ==> cursor.value < |items|
    }

    function CycleNext(): Ring<T>
      requires Live()
    {
      if cursor.None? || cursor.value == 0 then this
      else Ring(Swapped(items, 0, cursor.value), Some(After(cursor.value)))
    }

    function CyclePrev(): Ring<T>
      requires Live()
    {
      if cursor.None? || PrevPosition() == 0 then this
      else Ring(Swapped(items, 0, PrevPosition()), Some(PrevPosition()))
    }

    /** The position after p in the cycle. */
    function After(p: nat): nat {
      if p + 1 == |items| then 0 else p + 1
    }

    function PrevPosition(): (p: nat)
      requires Live() && cursor.Some?
      ensures p < |items|
    {
      if cursor.value == 0 then |items| - 1 else cursor.value - 1
    }

    /** What the program announces as the next and the previous item. */
    function NextInCycle(): Option<T>
      requires Live()
    {
      if cursor.None? || cursor.value == 0 then None else Some(items[cursor.value])
    }

    function PrevInCycle(): Option<T>
      requires Live()
    {
      if cursor.None? || PrevPosition() == 0 then None else Some(items[PrevPosition()])
    }

    function MoveToTop(k: nat): Ring<T>
      requires k < |items|
    {
      if k == 0 then this else Ring(Promoted(items, k), Some(1))
    }

    /** A new item goes on top, and only the newest limit items stay. */
    function Insert(x: T, limit: nat): Ring<T>
      requires 1 <= limit
    {
      var all := [x] + items;
      Ring(Newest(all, limit), if |items| == 0 || limit == 1 then None else Some(1))
    }

    function Remove(k: nat): Ring<T>
      requires k < |items| && cursor != Some(k)
    {
      Ring(Without(items, k),
           if cursor.Some? && cursor.value > k then Some(cursor.value - 1) else cursor)
    }
  }

  function Swapped<T>(s: seq<T>, i: nat, j: nat): (r: seq<T>)
    requires i < |s| && j < |s|
  {
    s[i := s[j]][j := s[i]]
  }

  function Without<T>(s: seq<T>, k: nat): (r: seq<T>)
    requires k < |s|
  {
    s[..k] + s[k + 1..]
  }

  /** Element k comes to the front; the others keep their order. */
  function Promoted<T>(s: seq<T>, k: nat): (r: seq<T>)
    requires k < |s|
  {
    [s[k]] + Without(s, k)
  }

  function Newest<T>(s: seq<T>, limit: nat): (r: seq<T>) {
    if |s| <= limit then s else s[..limit]
  }

  function CycleNextTimes<T>(r: Ring<T>, k: nat): (q: Ring<T>)
    requires r.Live()
    ensures q.Live() && |q.items| == |r.items|
    decreases k
  {
    if k == 0 then r else CycleNextTimes(r, k - 1).CycleNext()
  }

  function CyclePrevTimes<T>(r: Ring<T>, k: nat): (q: Ring<T>)
    requires r.Live()
    ensures q.Live()
    decreases k
  {
    if k == 0 then r else CyclePrevTimes(r.CyclePrev(), k - 1)
  }

  lemma SwapPromoted<T>(s: seq<T>, k: nat)
    requires 1 <= k < |s|
    ensures Swapped(Promoted(s, k - 1), 0, k) == Promoted(s, k)
  {
    var p := Promoted(s, k - 1);
    assert p[k] == s[k];
    forall i | 0 <= i < |s|
      ensures Swapped(p, 0, k)[i] == Promoted(s, k)[i]
    {
    }
  }

  /** From the state an insert or a move to top leaves, k steps forward bring exactly item k to the top. */
  lemma {:induction false} CycleNextPromotes<T>(r: Ring<T>, k: nat)
    requires r.cursor == Some(1) && k < |r.items| && 2 <= |r.items|
    decreases k
    ensures CycleNextTimes(r, k).items == Promoted(r.items, k) == r.MoveToTop(k).items
    ensures CycleNextTimes(r, k).cursor == Some(r.After(k))
  {
    if k != 0 {
      CycleNextPromotes(r, k - 1);
      SwapPromoted(r.items, k);
    }
  }

  /** Once every item has had its turn, the cursor is the top and further steps do nothing. */
  lemma {:induction false} CycleNextSaturates<T>(r: Ring<T>, k: nat)
    requires r.cursor == Some(1) && 2 <= |r.items| && |r.items| - 1 <= k
    decreases k
    ensures CycleNextTimes(r, k).items == Promoted(r.items, |r.items| - 1)
    ensures CycleNextTimes(r, k).cursor == Some(0)
  {
    if k == |r.items| - 1 {
      CycleNextPromotes(r, k);
    } else {
      CycleNextSaturates(r, k - 1);
    }
  }

  /** One step back undoes every step forward that changed something, on rings of any size. */
  lemma PrevUndoesNext<T>(r: Ring<T>)
    requires r.Live() && r.cursor.Some? && r.cursor.value != 0
    ensures r.CycleNext().Live() && r.CycleNext().CyclePrev() == r
  {
    var c := r.cursor.value;
    var next := r.CycleNext();
    assert next.PrevPosition() == c;
    assert Swapped(next.items, 0, c) == r.items;
  }

  /** And one step forward undoes every step back that changed something. */
  lemma NextUndoesPrev<T>(r: Ring<T>)
    requires r.Live() && r.cursor.Some? && r.PrevPosition() != 0
    ensures r.CyclePrev().Live() && r.CyclePrev().CycleNext() == r
  {
    var p := r.PrevPosition();
    assert Swapped(r.CyclePrev().items, 0, p) == r.items;
  }

  /** k steps forward that all had an effect, then k back, are the identity. */
  lemma {:induction false} CycleRoundTrip<T>(r: Ring<T>, k: nat)
    requires r.Live()
    requires r.cursor.Some? && r.cursor.value != 0 && k <= |r.items| - r.cursor.value
    decreases k
    ensures CyclePrevTimes(CycleNextTimes(r, k), k) == r
    ensures k < |r.items| - r.cursor.value ==> CycleNextTimes(r, k).cursor == Some(r.cursor.value + k)
  {
    if k != 0 {
      CycleRoundTrip(r, k - 1);
      PrevUndoesNext(CycleNextTimes(r, k - 1));
    }
  }

  /** Cycling brings to the top exactly the item announced, and does nothing when none is announced. */
  lemma AnnouncedItemBecomesTop<T>(r: Ring<T>)
    requires r.Live() && r.items != []
    ensures r.CycleNext().items[0] == (if r.NextInCycle().Some? then r.NextInCycle().value else r.items[0])
    ensures r.CyclePrev().items[0] == (if r.PrevInCycle().Some? then r.PrevInCycle().value else r.items[0])
    ensures r.NextInCycle().None? <==> r.CycleNext() == r || (|r.items| == 1)
  {
  }

  /** No operation ever duplicates, loses or invents an item while cycling. */
  lemma CyclingPermutes<T>(r: Ring<T>)
    requires r.Live()
    ensures multiset(r.CycleNext().items) == multiset(r.items) == multiset(r.CyclePrev().items)
  {
    if r.cursor.Some? && r.cursor.value != 0 { SwapPermutes(r.items, 0, r.cursor.value); }
    if r.cursor.Some? && r.PrevPosition() != 0 { SwapPermutes(r.items, 0, r.PrevPosition()); }
  }

  lemma SwapPermutes<T>(s: seq<T>, i: nat, j: nat)
    requires i < |s| && j < |s|
    ensures multiset(Swapped(s, i, j)) == multiset(s)
  {
    var t := s[i := s[j]];
    assert multiset(t) == multiset(s) - multiset{s[i]} + multiset{s[j]};
    assert multiset(t[j := s[i]]) == multiset(t) - multiset{t[j]} + multiset{s[i]};
  }
}
