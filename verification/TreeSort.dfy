/**
 Sorting the entries of a menu tree: the items between two separators are sorted among themselves, by name or by
 description, and so are the items of every submenu.
 */
module TreeSort {
  import opened Strings

  datatype Kind = Separator | Entry(description: string) | Folder

  /** An item of the tree. Sorting changes the order of the children and nothing else. */
  class TreeItem {
    const kind: Kind
    const name: string
    var children: seq<TreeItem>
    ghost const Repr: set<TreeItem>  // the item and everything below it

    constructor (kind: Kind, name: string, children: seq<TreeItem>)
      requires !kind.Folder? ==> children == []
      requires Apart(children) && forall c :: c in children ==> c.Valid()
      ensures this.kind == kind && this.name == name && this.children == children && Valid()
    {
      this.kind, this.name, this.children := kind, name, children;
      Repr := {this} + set c, n | c in children && n in c.Repr :: n;
      new;
      forall c | c in children ensures this !in c.Repr { assert c.Valid(); }
    }

    predicate IsSeparator() { kind.Separator? }

    predicate IsDirectory() { kind.Folder? }

    function Description(): string { if kind.Entry? then kind.description else "" }

    /** Only folders have children, and what hangs below one child hangs below no other. */
    ghost predicate Valid()
      reads this, Repr
      decreases Repr
    {
      && this in Repr && (!IsDirectory() ==> children == [])
      && Apart(children) && Holds(children)
      && forall c :: c in children ==> c.Valid()
    }

    /** These are what is directly below the item. */
    ghost predicate Holds(cs: seq<TreeItem>) {
      && (forall c :: c in cs ==> c in Repr && c.Repr < Repr && this !in c.Repr)
      && (forall n :: n in Repr && n != this ==> exists c :: c in cs && n in c.Repr)
    }
  }

  /** No item is listed twice, nor is anything below two of them. */
  ghost predicate Apart(cs: seq<TreeItem>) {
    && (forall c :: c in cs ==> multiset(cs)[c] == 1)
    && (forall c, d :: c in cs && d in cs && c != d ==> c.Repr !! d.Repr)
  }

  datatype SortType = SortByName | SortByDescription

  // ---- comparing ----

  predicate NameLess(a: TreeItem, b: TreeItem) { StringLess(Lower(a.name), Lower(b.name)) }

  /** Items without a description are compared by name. */
  predicate DescriptionLess(a: TreeItem, b: TreeItem) {
    var d, e := Lower(a.Description()), Lower(b.Description());
    if d == "" && e == "" then NameLess(a, b) else StringLess(d, e)
  }

  predicate Less(t: SortType, a: TreeItem, b: TreeItem) {
    if t == SortByName then NameLess(a, b) else DescriptionLess(a, b)
  }

  /** What a comparison looks at, as one key: the order by description is one of pairs. */
  function KeyOf(t: SortType, a: TreeItem): (string, string) {
    var d, n := Lower(a.Description()), Lower(a.name);
    if t == SortByName then (n, "") else (d, if d == "" then n else "")
  }

  predicate KeyLess(a: (string, string), b: (string, string)) {
    StringLess(a.0, b.0) || (a.0 == b.0 && StringLess(a.1, b.1))
  }

  lemma LessIsKeyLess(t: SortType, a: TreeItem, b: TreeItem)
    ensures Less(t, a, b) <==> KeyLess(KeyOf(t, a), KeyOf(t, b))
  {
    StringLessTotal(Lower(a.name), Lower(a.name));
    StringLessTotal(Lower(a.Description()), Lower(a.Description()));
    StringLessTotal("", "");
  }

  lemma KeyLessTotal(a: (string, string), b: (string, string))
    ensures !KeyLess(a, a) && !(KeyLess(a, b) && KeyLess(b, a)) && (KeyLess(a, b) || KeyLess(b, a) || a == b)
  {
    StringLessTotal(a.0, b.0);
    StringLessTotal(a.1, b.1);
  }

  lemma KeyLessTransitive(a: (string, string), b: (string, string), c: (string, string))
    requires KeyLess(a, b) && KeyLess(b, c)
    ensures KeyLess(a, c)
  {
    StringLessTotal(a.0, a.0);
    if StringLess(a.0, b.0) && StringLess(b.0, c.0) { StringLessTransitive(a.0, b.0, c.0); }
    if a.0 == b.0 && b.0 == c.0 { StringLessTransitive(a.1, b.1, c.1); }
  }

  /** Both comparisons are strict weak orders: irreflexive, transitive, and being neither less nor greater is
      transitive as well. */
  lemma StrictWeakOrder(t: SortType, a: TreeItem, b: TreeItem, c: TreeItem)
    ensures !Less(t, a, a)
    ensures Less(t, a, b) && Less(t, b, c) ==> Less(t, a, c)
    ensures !Less(t, a, b) && !Less(t, b, a) && !Less(t, b, c) && !Less(t, c, b) ==> !Less(t, a, c) && !Less(t, c, a)
    ensures !Less(t, b, a) && !Less(t, c, b) ==> !Less(t, c, a)
  {
    hide Less, KeyLess, KeyOf;
    LessIsKeyLess(t, a, a);
    LessIsKeyLess(t, a, b);
    LessIsKeyLess(t, b, a);
    LessIsKeyLess(t, b, c);
    LessIsKeyLess(t, c, b);
    LessIsKeyLess(t, a, c);
    LessIsKeyLess(t, c, a);
    var x, y, z := KeyOf(t, a), KeyOf(t, b), KeyOf(t, c);
    KeyLessTotal(x, y);
    KeyLessTotal(y, z);
    KeyLessTotal(x, z);
    if KeyLess(x, y) && KeyLess(y, z) { KeyLessTransitive(x, y, z); }
  }

  // ---- sorting a range ----

  ghost predicate Ordered(t: SortType, s: seq<TreeItem>) {
    forall i, j :: 0 <= i < j < |s| ==> !Less(t, s[j], s[i])
  }

  /** What any sort may make of a range. */
  ghost predicate SortOf(t: SortType, before: seq<TreeItem>, after: seq<TreeItem>) {
    |before| == |after| && multiset(before) == multiset(after) && Ordered(t, after)
  }

  function Insert(t: SortType, x: TreeItem, s: seq<TreeItem>): (r: seq<TreeItem>)
    ensures |r| == |s| + 1
  {
    if s == [] then [x] else if Less(t, s[0], x) then [s[0]] + Insert(t, x, s[1..]) else [x] + s
  }

  function Sorted(t: SortType, s: seq<TreeItem>): (r: seq<TreeItem>)
    ensures |r| == |s|
  {
    if s == [] then [] else Insert(t, s[0], Sorted(t, s[1..]))
  }

  lemma {:induction false} InsertPermutes(t: SortType, x: TreeItem, s: seq<TreeItem>)
    ensures multiset(Insert(t, x, s)) == multiset(s) + multiset{x}
  {
    hide Less;
    if s != [] {
      assert s == [s[0]] + s[1..];
      InsertPermutes(t, x, s[1..]);
    }
  }

  lemma {:induction false} InsertOrders(t: SortType, x: TreeItem, s: seq<TreeItem>)
    requires Ordered(t, s)
    ensures Ordered(t, Insert(t, x, s))
  {
    hide Less;
    if s != [] {
      if Less(t, s[0], x) {
        var rest := s[1..];
        assert forall i :: 0 <= i < |rest| ==> rest[i] == s[i + 1];
        InsertOrders(t, x, rest);
        BehindFirst(t, x, s);
        FirstInFront(t, s[0], Insert(t, x, rest));
      } else {
        forall j | 0 <= j < |s| ensures !Less(t, s[j], x) {
          if j > 0 { StrictWeakOrder(t, x, s[0], s[j]); }
        }
        FirstInFront(t, x, s);
      }
    }
  }

  lemma FirstInFront(t: SortType, x: TreeItem, s: seq<TreeItem>)
    requires Ordered(t, s) && forall j :: 0 <= j < |s| ==> !Less(t, s[j], x)
    ensures Ordered(t, [x] + s)
  {
    hide Less;
  }

  lemma BehindFirst(t: SortType, x: TreeItem, s: seq<TreeItem>)
    requires s != [] && Ordered(t, s) && Less(t, s[0], x)
    ensures var r := Insert(t, x, s[1..]); forall j :: 0 <= j < |r| ==> !Less(t, r[j], s[0])
  {
    hide Less, Insert;
    var rest := s[1..];
    InsertPermutes(t, x, rest);
    var r := Insert(t, x, rest);
    forall j | 0 <= j < |r| ensures !Less(t, r[j], s[0]) {
      assert r[j] in multiset(r);
      if r[j] == x {
        StrictWeakOrder(t, s[0], x, s[0]);
      } else {
        assert r[j] in rest;
        var i :| 0 <= i < |rest| && rest[i] == r[j];
        assert s[i + 1] == r[j];
      }
    }
  }

  lemma {:induction false} SortedSorts(t: SortType, s: seq<TreeItem>)
    ensures SortOf(t, s, Sorted(t, s))
  {
    hide Less, Insert;
    if s != [] {
      SortedSorts(t, s[1..]);
      InsertPermutes(t, s[0], Sorted(t, s[1..]));
      InsertOrders(t, s[0], Sorted(t, s[1..]));
      assert s == [s[0]] + s[1..];
    }
  }

  /** Stands for the library's sort: of its result only SortOf is used. */
  method Sort(a: array<TreeItem>, begin: nat, end: nat, t: SortType) returns (ghost group: seq<TreeItem>)
    requires begin <= end <= a.Length
    modifies a
    ensures SortOf(t, old(a[..])[begin..end], group) && |group| == end - begin
    ensures a[..] == old(a[..])[..begin] + group + old(a[..])[end..]
  {
    hide Less, Sorted, SortOf;
    ghost var was := a[..];
    var s := Sorted(t, a[begin..end]);
    SortedSorts(t, was[begin..end]);
    assert a[begin..end] == was[begin..end];
    for k := begin to end
      invariant forall i {:trigger a[i]} :: 0 <= i < a.Length ==> a[i] == if begin <= i < k then s[i - begin] else was[i]
    {
      a[k] := s[k - begin];
    }
    group := s;
    assert a[..] == was[..begin] + s + was[end..];
  }

  // ---- sorting between separators ----

  /** Where the first group ends: at the first separator that is not at the very beginning. */
  function GroupEnd(s: seq<TreeItem>): (k: nat)
    ensures k <= |s| && (s != [] ==> k > 0) && (k < |s| ==> s[k].IsSeparator())
    ensures forall i :: 0 < i < k ==> !s[i].IsSeparator()
  {
    if |s| <= 1 then |s| else if s[1].IsSeparator() then 1
    else
      var k := GroupEnd(s[1..]);
      assert forall i :: 1 < i < k + 1 ==> s[i] == s[1..][i - 1];
      k + 1
  }

  /** Group after group is sorted, the separators that end them stay. */
  ghost predicate Groups(t: SortType, before: seq<TreeItem>, after: seq<TreeItem>)
    decreases |before|
  {
    |before| == |after| &&
    (before != [] ==>
       var k := GroupEnd(before);
       && SortOf(t, before[..k], after[..k])
       && (k < |before| ==> after[k] == before[k] && Groups(t, before[k + 1..], after[k + 1..])))
  }

  /** The groups before the index start are done; each of them ended with a separator. */
  ghost predicate Leads(t: SortType, before: seq<TreeItem>, start: nat, done: seq<TreeItem>)
    decreases start
  {
    start <= |before| && |done| == start &&
    (start > 0 ==>
       var k := GroupEnd(before);
       && k < start && SortOf(t, before[..k], done[..k]) && done[k] == before[k]
       && Leads(t, before[k + 1..], start - k - 1, done[k + 1..]))
  }

  lemma {:induction false} GroupEndIs(s: seq<TreeItem>, k: nat)
    requires 0 < k <= |s| && (k < |s| ==> s[k].IsSeparator()) && forall i :: 0 < i < k ==> !s[i].IsSeparator()
    ensures GroupEnd(s) == k
  {
    if k > 1 {
      assert !s[1].IsSeparator();
      GroupEndIs(s[1..], k - 1);
    }
  }

  lemma {:induction false} LeadsOn(t: SortType, before: seq<TreeItem>, start: nat, done: seq<TreeItem>, k: nat,
                                   group: seq<TreeItem>)
    requires Leads(t, before, start, done) && start < k < |before|
    requires GroupEnd(before[start..]) == k - start && SortOf(t, before[start..k], group)
    ensures Leads(t, before, k + 1, done + group + [before[k]])
    decreases start, 1
  {
    hide SortOf, GroupEnd;
    GroupSize(t, before[start..k], group);
    var r := done + group + [before[k]];
    if start == 0 {
      assert before[0..] == before && before[..k] == before[0..k] && r[..k] == group && r[k + 1..] == [];
      assert Leads(t, before[k + 1..], 0, []);
    } else {
      hide Leads;
      LeadsOnTail(t, before, start, done, k, group);
    }
  }

  lemma {:induction false} LeadsOnTail(t: SortType, before: seq<TreeItem>, start: nat, done: seq<TreeItem>, k: nat,
                                       group: seq<TreeItem>)
    requires 0 < start < k < |before| && Leads(t, before, start, done)
    requires GroupEnd(before[start..]) == k - start && SortOf(t, before[start..k], group)
    ensures Leads(t, before, k + 1, done + group + [before[k]])
    decreases start, 0
  {
    hide Leads, SortOf, GroupEnd;
    LeadsUnfold(t, before, start, done);
    var j := GroupEnd(before);
    var r, tail, rest := done + group + [before[k]], before[j + 1..], done[j + 1..];
    GroupSize(t, before[start..k], group);
    Suffixes(before, j, start, k);
    LeadsOn(t, tail, start - j - 1, rest, k - j - 1, group);
    AfterPrefix(done, group, before[k], j);
    LeadsFold(t, before, k + 1, r);
  }

  lemma LeadsUnfold(t: SortType, before: seq<TreeItem>, start: nat, done: seq<TreeItem>)
    requires 0 < start && Leads(t, before, start, done)
    ensures |done| == start <= |before| && GroupEnd(before) < start
    ensures var k := GroupEnd(before); SortOf(t, before[..k], done[..k]) && done[k] == before[k]
    ensures var k := GroupEnd(before); Leads(t, before[k + 1..], start - k - 1, done[k + 1..])
  {
    hide SortOf, GroupEnd;
  }

  lemma LeadsFold(t: SortType, before: seq<TreeItem>, start: nat, done: seq<TreeItem>)
    requires 0 < start <= |before| && |done| == start && GroupEnd(before) < start
    requires var k := GroupEnd(before); SortOf(t, before[..k], done[..k]) && done[k] == before[k]
    requires var k := GroupEnd(before); Leads(t, before[k + 1..], start - k - 1, done[k + 1..])
    ensures Leads(t, before, start, done)
  {
    hide SortOf, GroupEnd;
  }

  lemma Suffixes(s: seq<TreeItem>, j: nat, start: nat, k: nat)
    requires j < start < k < |s|
    ensures s[j + 1..][start - j - 1..] == s[start..] && s[j + 1..][start - j - 1..k - j - 1] == s[start..k]
    ensures s[j + 1..][k - j - 1] == s[k]
  {
  }

  lemma AfterPrefix(done: seq<TreeItem>, group: seq<TreeItem>, x: TreeItem, j: nat)
    requires j < |done|
    ensures var r := done + group + [x];
      r[..j] == done[..j] && r[j] == done[j] && r[j + 1..] == done[j + 1..] + group + [x]
  {
  }

  lemma GroupSize(t: SortType, before: seq<TreeItem>, after: seq<TreeItem>)
    requires SortOf(t, before, after)
    ensures |before| == |after|
  {
  }

  /** The last group may be empty, when the list ends with a separator. */
  lemma {:induction false} LeadsToEnd(t: SortType, before: seq<TreeItem>, start: nat, done: seq<TreeItem>,
                                      group: seq<TreeItem>)
    requires Leads(t, before, start, done) && SortOf(t, before[start..], group)
    requires before[start..] != [] ==> GroupEnd(before[start..]) == |before| - start
    ensures Groups(t, before, done + group)
    decreases start
  {
    hide SortOf, GroupEnd, Leads, Groups;
    LeadsSize(t, before, start, done);
    GroupSize(t, before[start..], group);
    var r := done + group;
    if start == 0 {
      assert before[0..] == before && r == group;
      LastGroup(t, before, group);
    } else {
      LeadsUnfold(t, before, start, done);
      var j := GroupEnd(before);
      Suffix(before, j, start);
      LeadsToEnd(t, before[j + 1..], start - j - 1, done[j + 1..], group);
      assert r[..j] == done[..j] && r[j] == done[j] && r[j + 1..] == done[j + 1..] + group;
      GroupsFold(t, before, r);
    }
  }

  lemma LeadsSize(t: SortType, before: seq<TreeItem>, start: nat, done: seq<TreeItem>)
    requires Leads(t, before, start, done)
    ensures |done| == start <= |before|
  {
  }

  lemma LastGroup(t: SortType, before: seq<TreeItem>, after: seq<TreeItem>)
    requires SortOf(t, before, after) && |before| == |after| && (before != [] ==> GroupEnd(before) == |before|)
    ensures Groups(t, before, after)
  {
    hide SortOf, GroupEnd;
    assert before[..|before|] == before && after[..|before|] == after;
  }

  lemma Suffix(s: seq<TreeItem>, j: nat, start: nat)
    requires j < start <= |s|
    ensures s[j + 1..][start - j - 1..] == s[start..]
  {
  }

  lemma GroupsFold(t: SortType, before: seq<TreeItem>, after: seq<TreeItem>)
    requires |before| == |after| && GroupEnd(before) < |before|
    requires var k := GroupEnd(before);
      SortOf(t, before[..k], after[..k]) && after[k] == before[k] && Groups(t, before[k + 1..], after[k + 1..])
    ensures Groups(t, before, after)
  {
    hide SortOf, GroupEnd;
  }

  /** A list of which everything before the index start is done, and nothing from there on touched. */
  ghost predicate Halfway(t: SortType, before: seq<TreeItem>, now: seq<TreeItem>, start: nat) {
    start <= |before| == |now| && now[start..] == before[start..] && Leads(t, before, start, now[..start])
  }

  lemma GroupDone(t: SortType, before: seq<TreeItem>, now: seq<TreeItem>, start: nat, k: nat, group: seq<TreeItem>)
    requires Halfway(t, before, now, start) && start < k < |before| && before[k].IsSeparator()
    requires forall i :: start < i < k ==> !before[i].IsSeparator()
    requires SortOf(t, now[start..k], group) && |group| == k - start
    ensures Halfway(t, before, now[..start] + group + now[k..], k + 1)
  {
    hide SortOf, Leads, GroupEnd;
    var done, next := now[..start], now[..start] + group + now[k..];
    GroupEndIs(before[start..], k - start);
    assert now[start..k] == now[start..][..k - start] == before[start..k];
    assert now[k..] == now[start..][k - start..] == before[k..];
    LeadsOn(t, before, start, done, k, group);
    assert next[..k + 1] == done + group + [before[k]] && next[k + 1..] == before[k + 1..];
  }

  lemma LastGroupDone(t: SortType, before: seq<TreeItem>, now: seq<TreeItem>, start: nat, group: seq<TreeItem>)
    requires Halfway(t, before, now, start)
    requires forall i :: start < i < |before| ==> !before[i].IsSeparator()
    requires SortOf(t, now[start..], group)
    ensures Groups(t, before, now[..start] + group)
  {
    hide SortOf, Leads, Groups, GroupEnd;
    if start < |before| { GroupEndIs(before[start..], |before| - start); }
    LeadsToEnd(t, before, start, now[..start], group);
  }

  lemma HalfwayFromStart(t: SortType, before: seq<TreeItem>)
    ensures Halfway(t, before, before, 0)
  {
  }

  method SortItemChildren(children: array<TreeItem>, t: SortType)
    modifies children
    ensures Groups(t, old(children[..]), children[..])
  {
    hide Groups, Leads, SortOf, Less, GroupEnd;
    ghost var before := children[..];
    HalfwayFromStart(t, before);
    var start, current := 0, 0;
    while current < children.Length
      invariant 0 <= start <= current <= children.Length
      invariant Halfway(t, before, children[..], start)
      invariant forall i :: start < i < current ==> !before[i].IsSeparator()
    {
      ghost var now := children[..];
      assert now[current] == now[start..][current - start] == before[start..][current - start];
      if children[current].IsSeparator() && start != current {
        ghost var group := Sort(children, start, current, t);
        GroupDone(t, before, now, start, current, group);
        start := current + 1;
      }
      current := current + 1;
    }
    ghost var now := children[..];
    ghost var group := Sort(children, start, current, t);
    assert now[start..current] == now[start..] && now[current..] == [];
    LastGroupDone(t, before, now, start, group);
    assert children[..] == now[..start] + group + [] == now[..start] + group;
  }

  // ---- what the groups come to ----

  lemma CountedAround(s: seq<TreeItem>, k: nat)
    requires k < |s|
    ensures multiset(s) == multiset(s[..k]) + multiset{s[k]} + multiset(s[k + 1..])
  {
    assert s == s[..k] + [s[k]] + s[k + 1..];
  }

  lemma SortOfSame(t: SortType, before: seq<TreeItem>, after: seq<TreeItem>)
    requires SortOf(t, before, after)
    ensures |before| == |after| && multiset(before) == multiset(after)
  {
  }

  lemma {:induction false} GroupsPermute(t: SortType, before: seq<TreeItem>, after: seq<TreeItem>)
    requires Groups(t, before, after)
    ensures multiset(before) == multiset(after)
    decreases |before|
  {
    hide GroupEnd, SortOf;
    if before != [] {
      var k := GroupEnd(before);
      SortOfSame(t, before[..k], after[..k]);
      if k < |before| {
        GroupsPermute(t, before[k + 1..], after[k + 1..]);
        CountedAround(before, k);
        CountedAround(after, k);
      } else {
        assert before[..k] == before && after[..k] == after;
      }
    }
  }

  /** An item that compares below everything that is not like it; separators are, having neither name nor
      description. */
  predicate Blank(t: SortType, a: TreeItem) { a.name == "" && (t == SortByName || a.Description() == "") }

  /** Separators have no name, everything else has one. */
  predicate Named(s: seq<TreeItem>) { forall i :: 0 <= i < |s| ==> (s[i].IsSeparator() <==> s[i].name == "") }

  lemma NamedBlank(t: SortType, s: seq<TreeItem>, i: nat)
    requires Named(s) && i < |s|
    ensures Blank(t, s[i]) <==> s[i].IsSeparator()
  {
  }

  lemma BlankKey(t: SortType, a: TreeItem)
    ensures Blank(t, a) <==> KeyOf(t, a) == ("", "")
  {
    assert Lower(a.name) == "" <==> a.name == "";
    assert Lower(a.Description()) == "" <==> a.Description() == "";
  }

  lemma BlankBelow(t: SortType, a: TreeItem, b: TreeItem)
    requires Blank(t, a)
    ensures !Less(t, b, a) && (Less(t, a, b) <==> !Blank(t, b))
  {
    hide Less, KeyOf, Blank;
    LessIsKeyLess(t, b, a);
    LessIsKeyLess(t, a, b);
    BlankKey(t, a);
    BlankKey(t, b);
  }

  /** Items start..end lie between two separators, or between one and an end of the list. */
  predicate IsRun(s: seq<TreeItem>, start: nat, end: nat) {
    && start <= end <= |s|
    && (start == 0 || s[start - 1].IsSeparator()) && (end == |s| || s[end].IsSeparator())
    && forall i :: start <= i < end ==> !s[i].IsSeparator()
  }

  /** Every separator is where it was, and between two of them are the same items as before, sorted. */
  ghost predicate SortedRuns(t: SortType, before: seq<TreeItem>, after: seq<TreeItem>) {
    && |before| == |after|
    && (forall i :: 0 <= i < |before| && before[i].IsSeparator() ==> after[i] == before[i])
    && (forall start: nat, end: nat :: IsRun(before, start, end) ==> SortOf(t, before[start..end], after[start..end]))
  }

  lemma BlankFirst(t: SortType, before: seq<TreeItem>, after: seq<TreeItem>)
    requires SortOf(t, before, after) && before != [] && Blank(t, before[0])
    requires forall i :: 0 < i < |before| ==> !Blank(t, before[i])
    ensures after[0] == before[0]
  {
    hide Less, Blank, Ordered;
    assert before[0] in multiset(after);
    var p :| 0 <= p < |after| && after[p] == before[0];
    assert after[0] in multiset(before);
    BlankBelow(t, before[0], after[0]);
    if p > 0 { OrderedAt(t, after, 0, p); }
  }

  lemma OrderedAt(t: SortType, s: seq<TreeItem>, i: nat, j: nat)
    requires Ordered(t, s) && i < j < |s|
    ensures !Less(t, s[j], s[i])
  {
    hide Less;
  }

  lemma SortOfRest(t: SortType, before: seq<TreeItem>, after: seq<TreeItem>)
    requires SortOf(t, before, after) && before != [] && after[0] == before[0]
    ensures SortOf(t, before[1..], after[1..])
  {
    hide Ordered;
    CountedAround(before, 0);
    CountedAround(after, 0);
    assert before[..0] == [] && after[..0] == [];
    assert multiset(before[1..]) == multiset(before) - multiset{before[0]};
    assert multiset(after[1..]) == multiset(after) - multiset{before[0]};
    OrderedRest(t, after);
  }

  lemma OrderedRest(t: SortType, s: seq<TreeItem>)
    requires s != [] && Ordered(t, s)
    ensures Ordered(t, s[1..])
  {
    hide Less;
  }

  lemma BlankPrepended(t: SortType, blank: TreeItem, before: seq<TreeItem>, after: seq<TreeItem>)
    requires Blank(t, blank) && SortOf(t, before, after)
    ensures SortOf(t, [blank] + before, [blank] + after)
  {
    hide Less, Blank;
    forall x ensures !Less(t, x, blank) { BlankBelow(t, blank, x); }
  }

  /** Whether the separator at the beginning of a group, which is sorted together with it, stays there depends on
      the group alone: it does, whatever the sort, unless something else compares equal to it. */
  lemma SweptSeparatorStays(t: SortType, group: seq<TreeItem>)
    requires group != [] && Blank(t, group[0])
    requires forall i :: 0 < i < |group| ==> group[i] != group[0]
    ensures (forall after :: SortOf(t, group, after) ==> after != [] && after[0] == group[0])
            <==> (forall i :: 0 < i < |group| ==> !Blank(t, group[i]))
  {
    hide Less, Blank, SortOf, Sorted;
    if j :| 0 < j < |group| && Blank(t, group[j]) {
      var after := BlankMayPass(t, group, j);
    } else {
      forall after | SortOf(t, group, after) ensures after != [] && after[0] == group[0] {
        GroupSize(t, group, after);
        BlankFirst(t, group, after);
      }
    }
  }

  lemma BlankMayPass(t: SortType, group: seq<TreeItem>, j: nat) returns (after: seq<TreeItem>)
    requires j < |group| && Blank(t, group[j])
    ensures SortOf(t, group, after) && after != [] && after[0] == group[j]
  {
    hide Less, Blank, SortOf, Sorted;
    var rest := group[..j] + group[j + 1..];
    after := [group[j]] + Sorted(t, rest);
    SortedSorts(t, rest);
    BlankPrepended(t, group[j], rest, Sorted(t, rest));
    CountedAround(group, j);
    SameItems(t, [group[j]] + rest, group, after);
  }

  lemma SameItems(t: SortType, a: seq<TreeItem>, b: seq<TreeItem>, after: seq<TreeItem>)
    requires SortOf(t, a, after) && multiset(a) == multiset(b)
    ensures SortOf(t, b, after)
  {
    assert |multiset(a)| == |a| && |multiset(b)| == |b|;
  }

  lemma RunsOfRest(s: seq<TreeItem>, k: nat, start: nat, end: nat)
    requires k < |s| && s[k].IsSeparator() && k < start
    ensures IsRun(s, start, end) <==> end >= start && IsRun(s[k + 1..], start - k - 1, end - k - 1)
    ensures IsRun(s, start, end) ==> s[k + 1..][start - k - 1..end - k - 1] == s[start..end]
  {
    var r := s[k + 1..];
    assert forall i :: 0 <= i < |r| ==> r[i] == s[i + k + 1];
    assert forall i :: k < i < |s| ==> s[i] == r[i - k - 1];
  }

  /** The first run of a group: all of it, or all but the separator that was swept in. */
  function FirstRun(s: seq<TreeItem>): (k: nat)
    requires s != []
    ensures k <= 1 && IsRun(s, k, GroupEnd(s))
  {
    if s[0].IsSeparator() then 1 else 0
  }

  lemma GroupsSortRun(t: SortType, before: seq<TreeItem>, after: seq<TreeItem>, start: nat, end: nat)
    requires Named(before) && Groups(t, before, after) && IsRun(before, start, end)
    ensures SortOf(t, before[start..end], after[start..end])
    decreases |before|
  {
    hide Less, GroupEnd, SortOf, Named;
    assert start <= end <= |before|;
    hide IsRun;
    if start == end {
      EmptySort(t);
      assert before[start..end] == [] && after[start..end] == [];
    } else {
      var k := GroupEnd(before);
      RunWithin(before, start, end);
      if start > k {
        RunsOfRest(before, k, start, end);
        NamedRest(before, k + 1);
        GroupsSortRun(t, before[k + 1..], after[k + 1..], start - k - 1, end - k - 1);
        assert after[k + 1..][start - k - 1..end - k - 1] == after[start..end];
      } else {
        FirstRunSorted(t, before, after);
      }
    }
  }

  /** A run that is not empty is the first one or lies behind the first group. */
  lemma RunWithin(s: seq<TreeItem>, start: nat, end: nat)
    requires IsRun(s, start, end) && start < end
    ensures s != [] && (start <= GroupEnd(s) ==> start == FirstRun(s) && end == GroupEnd(s))
    ensures start > GroupEnd(s) ==> s[GroupEnd(s)].IsSeparator()
  {
    hide GroupEnd;
  }

  lemma FirstRunSorted(t: SortType, before: seq<TreeItem>, after: seq<TreeItem>)
    requires Named(before) && Groups(t, before, after) && before != []
    ensures SortOf(t, before[FirstRun(before)..GroupEnd(before)], after[FirstRun(before)..GroupEnd(before)])
  {
    hide Less, GroupEnd, SortOf;
    var k := GroupEnd(before);
    if FirstRun(before) == 1 {
      FirstStays(t, before, after);
      SortOfRest(t, before[..k], after[..k]);
      assert before[..k][1..] == before[1..k] && after[..k][1..] == after[1..k];
    }
  }

  lemma EmptySort(t: SortType)
    ensures SortOf(t, [], [])
  {
  }

  lemma NamedRest(s: seq<TreeItem>, k: nat)
    requires Named(s) && k <= |s|
    ensures Named(s[k..])
  {
  }

  /** A separator swept into a group is its first item and stays that. */
  lemma FirstStays(t: SortType, before: seq<TreeItem>, after: seq<TreeItem>)
    requires Named(before) && Groups(t, before, after) && before != [] && before[0].IsSeparator()
    ensures after[0] == before[0]
  {
    hide Less, GroupEnd, SortOf, Blank;
    var k := GroupEnd(before);
    var group := before[..k];
    forall i | 0 <= i < k ensures Blank(t, group[i]) <==> i == 0 { NamedBlank(t, before, i); }
    BlankFirst(t, group, after[..k]);
  }

  lemma GroupsKeepSeparator(t: SortType, before: seq<TreeItem>, after: seq<TreeItem>, i: nat)
    requires Named(before) && Groups(t, before, after) && i < |before| && before[i].IsSeparator()
    ensures after[i] == before[i]
    decreases |before|
  {
    hide Less, GroupEnd, SortOf;
    var k := GroupEnd(before);
    if i > k {
      NamedRest(before, k + 1);
      GroupsKeepSeparator(t, before[k + 1..], after[k + 1..], i - k - 1);
    } else if i < k {
      FirstStays(t, before, after);
    }
  }

  lemma SortedRunsOfRest(t: SortType, before: seq<TreeItem>, after: seq<TreeItem>, k: nat)
    requires SortedRuns(t, before, after) && k < |before| && before[k].IsSeparator()
    ensures SortedRuns(t, before[k + 1..], after[k + 1..])
  {
    hide Less, SortOf;
    var b, a := before[k + 1..], after[k + 1..];
    forall start: nat, end: nat | IsRun(b, start, end) ensures SortOf(t, b[start..end], a[start..end]) {
      RunsOfRest(before, k, start + k + 1, end + k + 1);
      assert a[start..end] == after[start + k + 1..end + k + 1];
    }
  }

  lemma {:induction false} RunsMakeGroups(t: SortType, before: seq<TreeItem>, after: seq<TreeItem>)
    requires Named(before) && SortedRuns(t, before, after)
    ensures Groups(t, before, after)
    decreases |before|
  {
    hide Less, GroupEnd, SortOf;
    if before != [] {
      var k, start := GroupEnd(before), FirstRun(before);
      assert SortOf(t, before[start..k], after[start..k]);
      if start == 1 {
        NamedBlank(t, before, 0);
        BlankPrepended(t, before[0], before[1..k], after[1..k]);
        assert before[..k] == [before[0]] + before[1..k] && after[..k] == [after[0]] + after[1..k];
      } else {
        assert before[..k] == before[0..k] && after[..k] == after[0..k];
      }
      if k < |before| {
        SortedRunsOfRest(t, before, after, k);
        NamedRest(before, k + 1);
        RunsMakeGroups(t, before[k + 1..], after[k + 1..]);
      }
    }
  }

  /** Sorting group after group, separators swept into some of the groups, is the same as leaving every separator
      where it is and sorting what lies between them. */
  lemma GroupsAreSortedRuns(t: SortType, before: seq<TreeItem>, after: seq<TreeItem>)
    requires Named(before)
    ensures Groups(t, before, after) <==> SortedRuns(t, before, after)
  {
    hide Less, SortOf, Groups, Named;
    if Groups(t, before, after) {
      GroupsSize(t, before, after);
      forall i: nat | i < |before| && before[i].IsSeparator() ensures after[i] == before[i] {
        GroupsKeepSeparator(t, before, after, i);
      }
      forall start: nat, end: nat | IsRun(before, start, end)
        ensures SortOf(t, before[start..end], after[start..end])
      {
        GroupsSortRun(t, before, after, start, end);
      }
    }
    if SortedRuns(t, before, after) { RunsMakeGroups(t, before, after); }
  }

  lemma GroupsSize(t: SortType, before: seq<TreeItem>, after: seq<TreeItem>)
    requires Groups(t, before, after)
    ensures |before| == |after|
  {
  }

  // ---- what the order is ----

  /** One item may stand in front of the other: by the lower-cased descriptions when these are what is sorted by and
      one of the two has any, otherwise by the lower-cased names. */
  ghost predicate InOrder(t: SortType, a: TreeItem, b: TreeItem) {
    var n, m := Lower(a.name), Lower(b.name);
    var d, e := if a.kind.Entry? then Lower(a.kind.description) else "", if b.kind.Entry? then Lower(b.kind.description) else "";
    if t == SortByDescription && (d != "" || e != "") then d == e || Precedes(d, e) else n == m || Precedes(n, m)
  }

  lemma InOrderIs(t: SortType, a: TreeItem, b: TreeItem)
    ensures InOrder(t, a, b) <==> !Less(t, b, a)
  {
    var n, m, d, e := Lower(a.name), Lower(b.name), Lower(a.Description()), Lower(b.Description());
    StringLessTotal(n, m);
    StringLessTotal(d, e);
    StringLessIs(n, m);
    StringLessIs(d, e);
  }

  /** Neighbours with no separator between them are in order. */
  ghost predicate RunsInOrder(t: SortType, s: seq<TreeItem>) {
    forall i :: 0 <= i < |s| - 1 && !s[i].IsSeparator() && !s[i + 1].IsSeparator() ==> InOrder(t, s[i], s[i + 1])
  }

  lemma RunAround(s: seq<TreeItem>, i: nat) returns (start: nat, end: nat)
    requires i < |s| && !s[i].IsSeparator()
    ensures IsRun(s, start, end) && start <= i < end
  {
    start, end := i, i + 1;
    while start > 0 && !s[start - 1].IsSeparator()
      invariant start <= i && forall j :: start <= j < i ==> !s[j].IsSeparator()
    {
      start := start - 1;
    }
    while end < |s| && !s[end].IsSeparator()
      invariant i < end <= |s| && forall j :: i <= j < end ==> !s[j].IsSeparator()
    {
      end := end + 1;
    }
  }

  lemma SortedRunsInOrder(t: SortType, before: seq<TreeItem>, after: seq<TreeItem>)
    requires SortedRuns(t, before, after)
    ensures RunsInOrder(t, after)
  {
    hide Less, InOrder, SortOf;
    forall i | 0 <= i < |after| - 1 && !after[i].IsSeparator() && !after[i + 1].IsSeparator()
      ensures InOrder(t, after[i], after[i + 1])
    {
      assert !before[i].IsSeparator() && !before[i + 1].IsSeparator();
      var start, end := RunAround(before, i);
      var run := after[start..end];
      SortOfOrders(t, before[start..end], run);
      OrderedAt(t, run, i - start, i + 1 - start);
      InOrderIs(t, after[i], after[i + 1]);
    }
  }

  lemma SortOfOrders(t: SortType, before: seq<TreeItem>, after: seq<TreeItem>)
    requires SortOf(t, before, after)
    ensures Ordered(t, after)
  {
  }

  // ---- sorting a tree ----

  /** Sorts the children of an item, and those of every item below it. */
  method SortItem(item: TreeItem, t: SortType)
    requires item.Valid()
    modifies item.Repr`children
    ensures item.Valid()
    ensures forall n :: n in item.Repr ==> Groups(t, old(n.children), n.children)
    ensures forall n :: n in item.Repr && Named(old(n.children)) ==> SortedRuns(t, old(n.children), n.children)
    ensures forall n :: n in item.Repr && Named(old(n.children)) ==> RunsInOrder(t, n.children)
    decreases item.Repr, 1
  {
    hide *;
    SortBoth(item, t);
    forall n | n in item.Repr && Named(old(n.children))
      ensures SortedRuns(t, old(n.children), n.children) && RunsInOrder(t, n.children)
    {
      GroupsAreSortedRuns(t, old(n.children), n.children);
      SortedRunsInOrder(t, old(n.children), n.children);
    }
  }

  method SortBoth(item: TreeItem, t: SortType)
    requires item.Valid()
    modifies item.Repr`children
    ensures item.Valid()
    ensures forall n :: n in item.Repr ==> Groups(t, old(n.children), n.children)
    decreases item.Repr, 0, 1
  {
    hide Groups, GroupEnd, SortOf, Less;
    if !item.IsDirectory() || |item.children| == 0 {
      NothingToSort(t);
      assert item.Repr == {item};
      return;
    }
    SortChildren(item, t);
    SortBelow(item, t);
  }

  /** Takes the children of an item out, sorts them, and puts them back. */
  method SortChildren(item: TreeItem, t: SortType)
    requires item.Valid() && item.IsDirectory()
    modifies item`children
    ensures item.Valid() && Groups(t, old(item.children), item.children)
  {
    hide Groups, GroupEnd, SortOf, Less, TreeItem.Holds, Apart;
    ghost var before := item.children;
    assert forall c :: c in before ==> c.Valid() && item !in c.Repr by { Below(item); }
    var taken := item.children;
    item.children := [];
    var sorted := SortedList(taken, t);
    GroupsPermute(t, before, sorted);
    SameChildren(item, before, sorted);
    item.children := sorted;
  }

  lemma Below(item: TreeItem)
    requires item.Valid()
    ensures Apart(item.children)
    ensures forall c :: c in item.children ==> c.Valid() && item !in c.Repr && c.Repr < item.Repr
    ensures forall n :: n in item.Repr && n != item ==> exists i :: 0 <= i < |item.children| && n in item.children[i].Repr
  {
  }

  method SortedList(items: seq<TreeItem>, t: SortType) returns (sorted: seq<TreeItem>)
    ensures Groups(t, items, sorted)
  {
    hide Groups, GroupEnd, SortOf, Less;
    var children := new TreeItem[|items|](i requires 0 <= i < |items| => items[i]);
    assert children[..] == items;
    SortItemChildren(children, t);
    sorted := children[..];
  }

  lemma SameChildren(item: TreeItem, before: seq<TreeItem>, after: seq<TreeItem>)
    requires multiset(before) == multiset(after)
    ensures forall c :: c in before <==> c in after
    ensures Apart(before) ==> Apart(after)
    ensures item.Holds(before) ==> item.Holds(after)
  {
    assert forall c :: c in after <==> c in multiset(after);
    assert forall c :: c in before <==> c in multiset(before);
  }

  method SortBelow(item: TreeItem, t: SortType)
    requires item.Valid()
    modifies (item.Repr - {item})`children
    ensures item.Valid()
    ensures forall n :: n in item.Repr && n != item ==> Groups(t, old(n.children), n.children)
    decreases item.Repr, 0, 0
  {
    hide Groups, TreeItem.Holds, Apart, TreeItem.IsDirectory;
    var children := item.children;
    Below(item);
    for k := 0 to |children|
      invariant forall c :: c in children ==> c.Valid()
      invariant forall i, n :: 0 <= i < k && n in children[i].Repr ==> Groups(t, old(n.children), n.children)
      invariant forall i, n :: k <= i < |children| && n in children[i].Repr ==> n.children == old(n.children)
    {
      BesideItem(children, k);
      SortItem(children[k], t);
    }
  }

  lemma BesideItem(s: seq<TreeItem>, k: nat)
    requires k < |s| && Apart(s)
    ensures forall i :: 0 <= i < |s| && i != k ==> s[i] != s[k] && s[i].Repr !! s[k].Repr
  {
    CountedAround(s, k);
    assert multiset(s)[s[k]] == multiset(s[..k])[s[k]] + 1 + multiset(s[k + 1..])[s[k]];
    assert s[k] !in multiset(s[..k]) && s[k] !in multiset(s[k + 1..]);
    forall i | 0 <= i < |s| && i != k ensures s[i] != s[k] {
      if i < k { assert s[..k][i] in multiset(s[..k]); } else { assert s[k + 1..][i - k - 1] in multiset(s[k + 1..]); }
    }
  }

  lemma NothingToSort(t: SortType)
    ensures Groups(t, [], [])
  {
  }
}
