/**
 What edits leave in a menu besides its entries: whether it is marked as deleted, its layout, its directories, and where
 its submenus have been moved.
 */
module MenuMeaning {
  import opened Picking
  import opened MenuModel
  import opened MenuMembership
  import opened MenuRuns

  // ---- children by their tags ----

  ghost predicate HasTag(n: Node, tag: string) { n.Element? && n.tag == tag }

  /** There is one element with this tag. */
  ghost predicate One(ns: seq<Node>, tag: string) {
    exists k :: 0 <= k < |ns| && HasTag(ns[k], tag) && forall j :: 0 <= j < |ns| && HasTag(ns[j], tag) ==> j == k
  }

  ghost predicate No(ns: seq<Node>, tag: string) {
    forall k :: 0 <= k < |ns| ==> !HasTag(ns[k], tag)
  }

  /** One child with the first tag, none with the second, or the other way round. */
  ghost predicate Marked(ns: seq<Node>, deleted: bool) {
    if deleted then One(ns, "Deleted") && No(ns, "NotDeleted") else One(ns, "NotDeleted") && No(ns, "Deleted")
  }

  ghost predicate MarkedAt(n: Node, names: seq<string>, deleted: bool) {
    var m := Find(n, names);
    m.Some? && Marked(m.value.children, deleted)
  }

  ghost function Untagged(tags: set<string>): Node -> bool { (n: Node) => !(n.Element? && n.tag in tags) }

  lemma {:induction false} DropPicks(ns: seq<Node>, tags: set<string>)
    ensures Picks(Drop(ns, tags), ns, Untagged(tags))
  {
    hide Picks;
    var p := Untagged(tags);
    if ns == [] {
      PicksNone(p);
    } else {
      var rest, n := ns[..|ns| - 1], ns[|ns| - 1];
      DropPicks(rest, tags);
      PicksOn(Drop(rest, tags), rest, p, n);
      assert rest + [n] == ns;
      assert Drop(rest, tags) + [] == Drop(rest, tags);
    }
  }

  lemma Dropped(ns: seq<Node>, tags: set<string>, tag: string)
    requires tag in tags
    ensures No(Drop(ns, tags), tag)
  {
    hide Picks, Drop;
    DropPicks(ns, tags);
    PickedFrom(Drop(ns, tags), ns, Untagged(tags));
    var r := Drop(ns, tags);
    forall k | 0 <= k < |r| ensures !HasTag(r[k], tag) { assert r[k] in r; }
  }

  lemma MarkEdited(ns: seq<Node>, op: Op)
    requires op.Delete? || op.Undelete?
    ensures Marked(Edited(ns, op), op.Delete?)
  {
    hide Drop;
    var rest := Drop(ns, {"Deleted", "NotDeleted"});
    Dropped(ns, {"Deleted", "NotDeleted"}, "Deleted");
    Dropped(ns, {"Deleted", "NotDeleted"}, "NotDeleted");
    var r := Edited(ns, op);
    assert r == rest + [r[|rest|]];
    assert HasTag(r[|rest|], if op.Delete? then "Deleted" else "NotDeleted");
    assert forall j :: 0 <= j < |rest| ==> r[j] == rest[j];
  }

  /** Removing a menu leaves one mark that it is deleted and none that it is not, undoing it the other way round; what the
      menu had besides is as it was. */
  lemma MarkLeft(n: Node, names: seq<string>, op: Op)
    requires n.Element? && (op.Delete? || op.Undelete?)
    ensures MarkedAt(Edit(n, names, op), names, op.Delete?)
    ensures var before, after := ChildrenAt(n, names), Find(Edit(n, names, op), names);
      after.Some? && after.value.children != []
      && Picks(after.value.children[..|after.value.children| - 1], before, Untagged({"Deleted", "NotDeleted"}))
  {
    hide Edited, Drop, Picks, Edit, Marked;
    FindsEdited(n, names, op);
    MarkEdited(ChildrenAt(n, names), op);
    DropPicks(ChildrenAt(n, names), {"Deleted", "NotDeleted"});
    LastAdded(ChildrenAt(n, names), op);
  }

  lemma LastAdded(ns: seq<Node>, op: Op)
    requires op.Delete? || op.Undelete?
    ensures Edited(ns, op) != [] && Edited(ns, op)[..|Edited(ns, op)| - 1] == Drop(ns, {"Deleted", "NotDeleted"})
  {
  }

  // ---- the last mark counts ----

  predicate IsMark(n: Node) { Is(n, "Deleted") || Is(n, "NotDeleted") }

  /** The marks among a menu's children. */
  function Marks(ns: seq<Node>): seq<string> {
    if ns == [] then [] else (if IsMark(ns[0]) then [ns[0].tag] else []) + Marks(ns[1..])
  }

  function MarksAt(n: Node, names: seq<string>): seq<string> {
    var m := Find(n, names);
    if m.Some? then Marks(m.value.children) else []
  }

  lemma {:induction false} MarksConcat(a: seq<Node>, b: seq<Node>)
    ensures Marks(a + b) == Marks(a) + Marks(b)
  {
    if a == [] {
      assert a + b == b;
    } else {
      assert (a + b)[1..] == a[1..] + b;
      MarksConcat(a[1..], b);
    }
  }

  lemma {:induction false} NoMarks(ns: seq<Node>)
    requires forall i :: 0 <= i < |ns| ==> !IsMark(ns[i])
    ensures Marks(ns) == []
  {
    if ns != [] { NoMarks(ns[1..]); }
  }

  lemma {:induction false} MarksSame(a: seq<Node>, b: seq<Node>)
    requires |a| == |b|
    requires forall i :: 0 <= i < |a| ==> a[i] == b[i] || (!IsMark(a[i]) && !IsMark(b[i]))
    ensures Marks(a) == Marks(b)
  {
    if a != [] { MarksSame(a[1..], b[1..]); }
  }

  lemma {:induction false} MarksDropped(ns: seq<Node>)
    ensures Marks(Drop(ns, {"Layout"})) == Marks(ns)
  {
    if ns != [] {
      var rest, n := ns[..|ns| - 1], ns[|ns| - 1];
      MarksDropped(rest);
      MarksConcat(rest, [n]);
      MarksConcat(Drop(rest, {"Layout"}), if Is(n, "Layout") then [] else [n]);
      assert ns == rest + [n];
      if Is(n, "Layout") { NoMarks([n]); }
    }
  }

  lemma MarksListed(ns: seq<Node>, tag: string, id: string)
    requires Listing(tag)
    ensures Marks(List(ns, tag, id)) == Marks(ns)
  {
    var k := LastTag(ns, tag);
    if k < |ns| {
      MarksSame(ns, List(ns, tag, id));
    } else {
      MarkAppended(ns, Element(tag, map[], [FileNode(id)]));
    }
  }

  lemma MarkAppended(ns: seq<Node>, n: Node)
    ensures Marks(ns + [n]) == Marks(ns) + if IsMark(n) then [n.tag] else []
  {
    MarksConcat(ns, [n]);
    assert [n][1..] == [];
  }

  lemma OthersKeepMarks(ns: seq<Node>, op: Op)
    requires !op.Delete? && !op.Undelete?
    ensures Marks(Edited(ns, op)) == Marks(ns)
  {
    hide Marks, List, Drop;
    match op
    case Add(id) => MarksSame(ns, Purge(ns, id)); MarksListed(Purge(ns, id), "Include", id);
    case Remove(id) => MarksSame(ns, Purge(ns, id)); MarksListed(Purge(ns, id), "Exclude", id);
    case AddDirectory(id) => MarkAppended(ns, Leaf("Directory", id));
    case SetLayout(items) => MarksDropped(ns); MarkAppended(Drop(ns, {"Layout"}), Element("Layout", map[], LayoutNodes(items)));
    case Move(from, to) => MarkAppended(ns, Element("Move", map[], [Leaf("Old", from), Leaf("New", to)]));
  }

  /** A menu is marked just if its marks are the one. */
  lemma {:induction false} MarkedIs(ns: seq<Node>, deleted: bool)
    ensures Marked(ns, deleted) <==> Marks(ns) == [if deleted then "Deleted" else "NotDeleted"]
  {
    if ns == [] {
    } else if IsMark(ns[0]) {
      FirstMark(ns);
      RestWithout(ns, ns[0].tag == "Deleted");
      assert Marks(ns)[0] == ns[0].tag && Marks(ns)[1..] == Marks(ns[1..]);
    } else {
      MarkedIs(ns[1..], deleted);
      MarkedRest(ns, deleted);
    }
  }

  lemma FirstMark(ns: seq<Node>)
    requires ns != [] && IsMark(ns[0])
    ensures Marks(ns[1..]) == [] <==> forall i :: 0 < i < |ns| ==> !IsMark(ns[i])
  {
    var rest := ns[1..];
    assert forall i :: 0 <= i < |rest| ==> rest[i] == ns[i + 1];
    if forall i :: 0 < i < |ns| ==> !IsMark(ns[i]) { NoMarks(rest); }
    if i :| 0 < i < |ns| && IsMark(ns[i]) { SomeMark(rest, i - 1); }
  }

  lemma {:induction false} SomeMark(ns: seq<Node>, i: nat)
    requires i < |ns| && IsMark(ns[i])
    ensures Marks(ns) != []
  {
    if i > 0 { SomeMark(ns[1..], i - 1); }
  }

  lemma RestWithout(ns: seq<Node>, deleted: bool)
    requires ns != [] && IsMark(ns[0]) && (deleted <==> ns[0].tag == "Deleted")
    ensures Marked(ns, deleted) <==> forall i :: 0 < i < |ns| ==> !IsMark(ns[i])
    ensures !Marked(ns, !deleted)
  {
    assert HasTag(ns[0], ns[0].tag);
  }

  lemma MarkedRest(ns: seq<Node>, deleted: bool)
    requires ns != [] && !IsMark(ns[0])
    ensures Marked(ns, deleted) <==> Marked(ns[1..], deleted)
  {
    OneRest(ns, "Deleted");
    OneRest(ns, "NotDeleted");
  }

  lemma OneRest(ns: seq<Node>, tag: string)
    requires ns != [] && !HasTag(ns[0], tag)
    ensures One(ns, tag) <==> One(ns[1..], tag)
    ensures No(ns, tag) <==> No(ns[1..], tag)
  {
    var rest := ns[1..];
    assert forall i :: 0 <= i < |rest| ==> rest[i] == ns[i + 1];
    assert forall i :: 0 < i < |ns| ==> ns[i] == rest[i - 1];
    if One(rest, tag) { OneBehind(ns, tag); }
    if One(ns, tag) {
      var k :| 0 <= k < |ns| && HasTag(ns[k], tag) && forall j :: 0 <= j < |ns| && HasTag(ns[j], tag) ==> j == k;
      assert HasTag(rest[k - 1], tag);
    }
  }

  lemma OneBehind(ns: seq<Node>, tag: string)
    requires ns != [] && !HasTag(ns[0], tag) && One(ns[1..], tag)
    ensures One(ns, tag)
  {
    var rest := ns[1..];
    var k :| 0 <= k < |rest| && HasTag(rest[k], tag) && forall j :: 0 <= j < |rest| && HasTag(rest[j], tag) ==> j == k;
    assert HasTag(ns[k + 1], tag);
    forall j | 0 <= j < |ns| && HasTag(ns[j], tag) ensures j == k + 1 { assert HasTag(rest[j - 1], tag); }
  }

  /** An edit changes the marks of no other menu. */
  lemma {:induction false} OtherMarksKept(n: Node, names: seq<string>, op: Op, others: seq<string>)
    requires n.Element? && others != names
    ensures MarksAt(Edit(n, names, op), others) == MarksAt(n, others)
    decreases |names|
  {
    hide Edited, Marks, Edit;
    var r := Edit(n, names, op);
    if names == [] {
      MarksBelowKept(n, op, others);
    } else if others == [] {
      MenusMarkNothing(n, names, op);
    } else {
      FindFirst(n, others);
      FindFirst(r, others);
      EditedMenus(n, names, op, others[0]);
      if others[0] == names[0] {
        assert others == [others[0]] + others[1..] && names == [names[0]] + names[1..];
        OtherMarksKept(Target(n, names[0]), names[1..], op, others[1..]);
        FirstMenu(n.children, names[0]);
        if MenuIndex(n.children, names[0]) == |n.children| { NoMarksInNew(names[0], others[1..]); }
      }
    }
  }

  lemma MarksBelowKept(n: Node, op: Op, others: seq<string>)
    requires n.Element? && others != []
    ensures MarksAt(Edit(n, [], op), others) == MarksAt(n, others)
  {
    hide Edited, Marks;
    FindFirst(n, others);
    FindFirst(Edit(n, [], op), others);
    FirstEdited(n.children, op, MenuOf(others[0]));
  }

  lemma MenusMarkNothing(n: Node, names: seq<string>, op: Op)
    requires n.Element? && names != []
    ensures Marks(Edit(n, names, op).children) == Marks(n.children)
  {
    hide Edited, Marks;
    if MenuIndex(n.children, names[0]) < |n.children| {
      MarksSame(n.children, Edit(n, names, op).children);
    } else {
      MarkAppended(n.children, Edit(NewMenu(names[0]), names[1..], op));
    }
  }

  lemma NoMarksInNew(name: string, names: seq<string>)
    ensures MarksAt(NewMenu(name), names) == []
  {
    NothingInNew(name, names);
    NoMarks([Leaf("Name", name)]);
  }

  lemma MarksAfter(n: Node, names: seq<string>, op: Op, others: seq<string>)
    requires n.Element? && (others != names || (!op.Delete? && !op.Undelete?))
    ensures MarksAt(Edit(n, names, op), others) == MarksAt(n, others)
  {
    hide Edited, Marks;
    if others != names {
      OtherMarksKept(n, names, op, others);
    } else {
      FindsEdited(n, names, op);
      OthersKeepMarks(ChildrenAt(n, names), op);
      if Find(n, names).None? { NoMarks([Leaf("Name", names[|names| - 1])]); }
    }
  }

  /** Whether the last request that marks this menu deletes it. */
  function LastMark(rs: seq<Request>, names: seq<string>): Option<bool> {
    if rs == [] then None else
      var q := rs[|rs| - 1];
      if Names(q.path) == names && (q.op.Delete? || q.op.Undelete?) then Some(q.op.Delete?) else LastMark(rs[..|rs| - 1], names)
  }

  /** However the edits follow each other, a menu is marked as deleted just if it was removed last, and as not deleted just
      if it was moved to last; never as both and never twice. */
  lemma {:induction false} LastMarkWins(n: Node, rs: seq<Request>, names: seq<string>)
    requires n.Element?
    ensures var r, last := EditAll(n, rs), LastMark(rs, names);
      && (last.Some? ==> MarkedAt(r, names, last.value) && !MarkedAt(r, names, !last.value))
      && (last.None? ==> MarksAt(r, names) == MarksAt(n, names))
  {
    hide Edit, Names, Marks, Marked;
    if rs != [] {
      var before, q := EditAll(n, rs[..|rs| - 1]), rs[|rs| - 1];
      LastMarkWins(n, rs[..|rs| - 1], names);
      if Names(q.path) == names && (q.op.Delete? || q.op.Undelete?) {
        MarkLeft(before, names, q.op);
        NotBoth(EditAll(n, rs), names, q.op.Delete?);
      } else {
        MarksAfter(before, Names(q.path), q.op, names);
        SameMarked(before, EditAll(n, rs), names);
      }
    }
  }

  lemma NotBoth(n: Node, names: seq<string>, deleted: bool)
    requires MarkedAt(n, names, deleted)
    ensures !MarkedAt(n, names, !deleted)
  {
    hide Marks, Marked;
    MarkedIs(Find(n, names).value.children, deleted);
    MarkedIs(Find(n, names).value.children, !deleted);
  }

  lemma SameMarked(n: Node, m: Node, names: seq<string>)
    requires MarksAt(n, names) == MarksAt(m, names)
    ensures forall deleted :: MarkedAt(n, names, deleted) <==> MarkedAt(m, names, deleted)
  {
    hide Marks, Marked;
    forall deleted ensures MarkedAt(n, names, deleted) <==> MarkedAt(m, names, deleted) {
      if Find(n, names).Some? { MarkedIs(Find(n, names).value.children, deleted); }
      if Find(m, names).Some? { MarkedIs(Find(m, names).value.children, deleted); }
    }
  }

  /** After a menu has been moved its new place is marked as not deleted, wherever the instruction to move is left. */
  lemma MovedIsUndeleted(n: Node, oldMenu: string, newMenu: string)
    requires n.Element?
    ensures MarkedAt(Moved(n, oldMenu, newMenu), Names(newMenu), false)
  {
    hide EditAll, Names, Moved, Marked, Marks;
    var rs := Requests(MoveMenu(oldMenu, newMenu));
    MovedIsTwoEdits(n, oldMenu, newMenu);
    LastMarkWins(n, rs, Names(newMenu));
    MoveMarks(oldMenu, newMenu);
  }

  lemma MoveMarks(oldMenu: string, newMenu: string)
    ensures LastMark(Requests(MoveMenu(oldMenu, newMenu)), Names(newMenu)) == Some(false)
  {
    hide Names, Split, Common, Joined, Between, Rooted;
    var rs := Requests(MoveMenu(oldMenu, newMenu));
    if |rs| == 2 { assert rs[..1] == [rs[0]]; }
  }

  // ---- layouts, directories and instructions to move ----

  /** The element for an item of a layout. */
  ghost predicate Lays(n: Node, item: string) {
    if item == ":S" then n == Element("Separator", map[], [])
    else if item == ":M" then n == Element("Merge", map["type" := "menus"], [])
    else if item == ":F" then n == Element("Merge", map["type" := "files"], [])
    else if item == ":A" then n == Element("Merge", map["type" := "all"], [])
    else if item != "" && item[|item| - 1..] == "/" then n == Element("Menuname", map[], [Text(item[..|item| - 1])])
    else n == Element("Filename", map[], [Text(item)])
  }

  /** A new layout comes last and is the only one; it has an element for each item, and the rest of the menu stays. */
  lemma LayoutLeft(n: Node, names: seq<string>, layout: seq<string>)
    requires n.Element?
    ensures var m := Find(Edit(n, names, Op.SetLayout(LayoutItems(layout))), names);
      && m.Some? && m.value.children != []
      && var rest, last := m.value.children[..|m.value.children| - 1], m.value.children[|m.value.children| - 1];
      && No(rest, "Layout") && Picks(rest, ChildrenAt(n, names), Untagged({"Layout"}))
      && HasTag(last, "Layout") && last.attributes == map[] && |last.children| == |layout|
      && forall i :: 0 <= i < |layout| ==> Lays(last.children[i], layout[i])
  {
    hide Edit, Drop, Picks, ChildrenAt, Find;
    var op := Op.SetLayout(LayoutItems(layout));
    FindsEdited(n, names, op);
    DropPicks(ChildrenAt(n, names), {"Layout"});
    Dropped(ChildrenAt(n, names), {"Layout"}, "Layout");
    var rest := Drop(ChildrenAt(n, names), {"Layout"});
    var last := Element("Layout", map[], LayoutNodes(LayoutItems(layout)));
    assert Edited(ChildrenAt(n, names), op) == rest + [last] && (rest + [last])[..|rest|] == rest;
    forall i | 0 <= i < |layout| ensures Lays(LayoutNode(LayoutItemOf(layout[i])), layout[i]) { ItemLaid(layout[i]); }
  }

  lemma ItemLaid(item: string)
    ensures Lays(LayoutNode(LayoutItemOf(item)), item)
  {
    if item != "" { assert item[|item| - 1..] == [item[|item| - 1]]; }
  }

  /** A directory comes last, and so does an instruction to move, with the old place before the new one. */
  lemma AppendedLast(n: Node, names: seq<string>, op: Op)
    requires n.Element? && (op.AddDirectory? || op.Move?)
    ensures var m := Find(Edit(n, names, op), names);
      m.Some? && m.value.children == ChildrenAt(n, names) + [
        if op.AddDirectory? then Element("Directory", map[], [Text(op.id)])
        else Element("Move", map[], [Element("Old", map[], [Text(op.from)]), Element("New", map[], [Text(op.to)])])]
  {
    hide Edit, ChildrenAt, Find;
    FindsEdited(n, names, op);
  }

  // ---- where the instruction to move is left ----

  ghost function Parts(parts: seq<string>): seq<string> {
    if parts == [] then [] else Parts(parts[..|parts| - 1]) + (if parts[|parts| - 1] == "" then [] else [parts[|parts| - 1]])
  }

  lemma {:induction false} PartsConcat(a: seq<string>, b: seq<string>)
    ensures Parts(a + b) == Parts(a) + Parts(b)
  {
    if b == [] {
      assert a + b == a;
    } else {
      PartsConcat(a, b[..|b| - 1]);
      assert (a + b)[..|a + b| - 1] == a + b[..|b| - 1];
    }
  }

  lemma PartsOne(part: string)
    ensures Parts([part]) == if part == "" then [] else [part]
  {
    assert [part][..0] == [];
  }

  lemma {:induction false} NamesAreParts(path: string)
    ensures Names(path) == Parts(Split(path))
    decreases |path|
  {
    var i := IndexOf(path, '/');
    if i == |path| {
      PartsOne(path);
    } else {
      NamesAreParts(path[i + 1..]);
      PartsOne(path[..i]);
      PartsConcat([path[..i]], Split(path[i + 1..]));
      assert i == 0 <==> path[..i] == "";
    }
  }

  lemma NamesIs(path: string, i: nat)
    requires i <= |path| && (i < |path| ==> path[i] == '/') && forall j :: 0 <= j < i ==> path[j] != '/'
    ensures i == |path| ==> Names(path) == if path == "" then [] else [path]
    ensures i < |path| ==> Names(path) == (if i == 0 then [] else [path[..i]]) + Names(path[i + 1..])
  {
    hide IndexOf;
    IndexIs(path, i);
  }

  lemma {:induction false} IndexIs(s: string, k: nat)
    requires k <= |s| && (k < |s| ==> s[k] == '/') && forall j :: 0 <= j < k ==> s[j] != '/'
    ensures IndexOf(s, '/') == k
  {
    if k > 0 { IndexIs(s[1..], k - 1); }
  }

  lemma SlashFree(s: string)
    ensures forall j :: 0 <= j < IndexOf(s, '/') ==> s[j] != '/'
  {
    var t := s[..IndexOf(s, '/')];
    assert forall j :: 0 <= j < |t| ==> t[j] == s[j] && t[j] in t;
  }

  /** A slash separates the names in front of it from those behind it. */
  lemma {:induction false} NamesAround(p: string, q: string)
    ensures Names(p + "/" + q) == Names(p) + Names(q)
    decreases |p|
  {
    hide Names, IndexOf;
    var s, i := p + "/" + q, IndexOf(p, '/');
    SlashFree(p);
    NamesIs(p, i);
    NamesIs(s, i);
    if i == |p| {
      assert s[..i] == p && s[i + 1..] == q;
    } else {
      NamesAround(p[i + 1..], q);
      assert s[i + 1..] == p[i + 1..] + "/" + q && s[..i] == p[..i];
    }
  }

  ghost predicate Simple(parts: seq<string>) { forall i :: 0 <= i < |parts| ==> '/' !in parts[i] }

  lemma SimpleName(part: string)
    requires '/' !in part
    ensures Names(part) == Parts([part])
  {
    hide Names, Parts;
    PartsOne(part);
    NamesIs(part, |part|);
  }

  lemma {:induction false} SplitSimple(path: string)
    ensures Simple(Split(path))
    decreases |path|
  {
    var i := IndexOf(path, '/');
    if i == |path| {
      assert path[..i] == path;
    } else {
      SplitSimple(path[i + 1..]);
    }
  }

  lemma {:induction false} LastPart(path: string)
    ensures var a := Split(path); a[|a| - 1] == "" <==> path == "" || path[|path| - 1] == '/'
    decreases |path|
  {
    hide IndexOf;
    var i := IndexOf(path, '/');
    SlashFree(path);
    if i < |path| {
      var rest := Split(path[i + 1..]);
      LastPart(path[i + 1..]);
      assert Split(path) == [path[..i]] + rest;
    }
  }

  lemma {:induction false} NamesOfRooted(parts: seq<string>)
    requires Simple(parts)
    ensures Names(Rooted(parts)) == Parts(parts)
  {
    hide Names, Parts;
    if parts == [] {
      NoParts();
      NamesIs("", 0);
    } else {
      var rest, part := parts[..|parts| - 1], parts[|parts| - 1];
      NamesOfRooted(rest);
      SimpleName(part);
      NamesAround(Rooted(rest), part);
      PartsConcat(rest, [part]);
      assert parts == rest + [part];
    }
  }

  lemma {:induction false} NamesOfJoined(parts: seq<string>)
    requires Simple(parts)
    ensures Names(Joined(parts)) == Parts(parts)
  {
    hide Names, Parts;
    if parts == [] {
      NoParts();
      NamesIs("", 0);
    } else if |parts| == 1 {
      SimpleName(parts[0]);
      assert parts == [parts[0]];
    } else {
      var rest, part := parts[..|parts| - 1], parts[|parts| - 1];
      NamesOfJoined(rest);
      SimpleName(part);
      NamesAround(Joined(rest), part);
      PartsConcat(rest, [part]);
      assert parts == rest + [part];
    }
  }

  /** A path of which all but the last component is named: it ends with a slash, or is the common part of both paths. */
  ghost predicate Named(path: string, n: nat) {
    path == "" || path[|path| - 1] == '/' || n == |Split(path)|
  }

  lemma PlaceNamed(path: string, n: nat)
    requires n <= |Split(path)|
    ensures Names(Rooted(Split(path)[..n])) + Names(Joined(Between(Split(path), n))) == Names(path) <==> Named(path, n)
  {
    hide Names, Split, Joined, Rooted, Parts;
    var a := Split(path);
    SplitSimple(path);
    NamesOfRooted(a[..n]);
    NamesOfJoined(Between(a, n));
    NamesAreParts(path);
    LastPart(path);
    if n < |a| {
      assert a == a[..n] + (Between(a, n) + [a[|a| - 1]]);
      PartsConcat(a[..n], Between(a, n) + [a[|a| - 1]]);
      PartsConcat(Between(a, n), [a[|a| - 1]]);
      PartsOne(a[|a| - 1]);
      assert Parts(a) == Parts(a[..n]) + Parts(Between(a, n)) + Parts([a[|a| - 1]]);
    } else {
      assert a[..n] == a;
      NoParts();
    }
  }

  lemma NoParts()
    ensures Parts([]) == []
  {
  }

  /** The instruction to move that is left in the last menu both paths have in common names the old and the new menu, each
      just if its path ends with a slash or has nothing beyond the common part. And there is no instruction only if both
      name the same menu, where both do. */
  lemma MoveNames(oldMenu: string, newMenu: string)
    ensures var rs, n := Requests(MoveMenu(oldMenu, newMenu)), Common(Split(oldMenu), Split(newMenu));
      && rs != [] && rs[0] == Request(newMenu, Undelete)
      && (|rs| == 1 || (|rs| == 2 && rs[1].op.Move?))
      && (|rs| == 2 ==>
            && (Names(rs[1].path) + Names(rs[1].op.from) == Names(oldMenu) <==> Named(oldMenu, n))
            && (Names(rs[1].path) + Names(rs[1].op.to) == Names(newMenu) <==> Named(newMenu, n)))
      && (|rs| == 1 && Named(oldMenu, n) && Named(newMenu, n) ==> Names(oldMenu) == Names(newMenu))
  {
    hide Names, Split, Joined, Between, Rooted, Named;
    var a, b := Split(oldMenu), Split(newMenu);
    var n := Common(a, b);
    PlaceNamed(oldMenu, n);
    PlaceNamed(newMenu, n);
    assert a[..n] == b[..n];
  }

  // ---- queues of actions ----

  /** The last of these actions that is about the entry in the menu with these names; whether it adds it. */
  function LastEntry(actions: seq<Action>, names: seq<string>, id: string): Option<bool> {
    if actions == [] then None else
      var a, rest := actions[|actions| - 1], actions[..|actions| - 1];
      if (a.AddEntry? || a.RemoveEntry?) && Names(a.menu) == names && a.id == id then Some(a.AddEntry?)
      else LastEntry(rest, names, id)
  }

  /** The last of these actions that removes the menu with these names or makes it the new place of a menu; whether it
      removes it. */
  function LastRemoval(actions: seq<Action>, names: seq<string>): Option<bool> {
    if actions == [] then None else
      var a, rest := actions[|actions| - 1], actions[..|actions| - 1];
      if a.RemoveMenu? && Names(a.menu) == names then Some(true)
      else if a.MoveMenu? && Names(a.newMenu) == names then Some(false)
      else LastRemoval(rest, names)
  }

  lemma {:induction false} LastInConcat(a: seq<Request>, b: seq<Request>, names: seq<string>, id: string)
    ensures LastIn(a + b, names, id) == if LastIn(b, names, id).Some? then LastIn(b, names, id) else LastIn(a, names, id)
  {
    hide Names;
    if b == [] {
      assert a + b == a;
    } else {
      assert (a + b)[..|a + b| - 1] == a + b[..|b| - 1];
      LastInConcat(a, b[..|b| - 1], names, id);
    }
  }

  lemma {:induction false} LastMarkConcat(a: seq<Request>, b: seq<Request>, names: seq<string>)
    ensures LastMark(a + b, names) == if LastMark(b, names).Some? then LastMark(b, names) else LastMark(a, names)
  {
    hide Names;
    if b == [] {
      assert a + b == a;
    } else {
      assert (a + b)[..|a + b| - 1] == a + b[..|b| - 1];
      LastMarkConcat(a, b[..|b| - 1], names);
    }
  }

  lemma OneAction(a: Action, names: seq<string>, id: string)
    ensures LastIn(Requests(a), names, id) ==
      if (a.AddEntry? || a.RemoveEntry?) && Names(a.menu) == names && a.id == id
      then Some(if a.AddEntry? then Add(id) else Remove(id)) else None
    ensures LastMark(Requests(a), names) ==
      if a.RemoveMenu? && Names(a.menu) == names then Some(true) else if a.MoveMenu? && Names(a.newMenu) == names then Some(false) else None
  {
    hide Names, Split, Common, Joined, Between, Rooted;
    var rs := Requests(a);
    OneRequest(rs[0], names, id);
    if |rs| == 2 {
      assert rs == [rs[0]] + [rs[1]];
      OneRequest(rs[1], names, id);
      LastInConcat([rs[0]], [rs[1]], names, id);
      LastMarkConcat([rs[0]], [rs[1]], names);
    } else {
      assert rs == [rs[0]];
    }
  }

  lemma OneRequest(q: Request, names: seq<string>, id: string)
    ensures LastIn([q], names, id) == if Names(q.path) == names && About(q.op, id) then Some(q.op) else None
    ensures LastMark([q], names) == if Names(q.path) == names && (q.op.Delete? || q.op.Undelete?) then Some(q.op.Delete?) else None
  {
    hide Names;
    assert [q][..0] == [];
  }

  lemma {:induction false} LastAction(actions: seq<Action>, names: seq<string>, id: string)
    ensures var last := LastEntry(actions, names, id);
      LastIn(AllRequests(actions), names, id) == if last.None? then None else Some(if last.value then Add(id) else Remove(id))
    ensures LastMark(AllRequests(actions), names) == LastRemoval(actions, names)
  {
    hide Names, Requests;
    if actions != [] {
      var rest, a := actions[..|actions| - 1], actions[|actions| - 1];
      LastAction(rest, names, id);
      OneAction(a, names, id);
      LastInConcat(AllRequests(rest), Requests(a), names, id);
      LastMarkConcat(AllRequests(rest), Requests(a), names);
    }
  }

  /** After a queue of actions a menu includes an entry just if the last action about it there adds it, and excludes it just
      if that removes it; and it is marked as deleted just if it was removed after it last was a new place, and as not
      deleted just the other way round. */
  lemma QueueDecides(n: Node, actions: seq<Action>, names: seq<string>, id: string)
    requires n.Element? && Sparse(n)
    ensures var r, last := EditAll(n, AllRequests(actions)), LastEntry(actions, names, id);
      last.Some? ==> MentionsIn(r, names, "Include", id) == (if last.value then 1 else 0)
                     && MentionsIn(r, names, "Exclude", id) == (if last.value then 0 else 1)
    ensures var r, last := EditAll(n, AllRequests(actions)), LastRemoval(actions, names);
      last.Some? ==> MarkedAt(r, names, last.value) && !MarkedAt(r, names, !last.value)
  {
    hide Sparse, MentionsIn, EditAll, AllRequests, Names, LastIn, LastMark, MarkedAt, LastEntry, LastRemoval;
    LastAction(actions, names, id);
    LastWriterWins(n, AllRequests(actions), names, id);
    LastMarkWins(n, AllRequests(actions), names);
  }
}
