/**
 What edits mean for the menus' lists: the last edit of an entry decides whether a menu includes or excludes it,
 other entries and other menus stay as they are.
 */
module MenuMembership {
  import opened MenuModel

  // ---- looking for the first child of a kind ----

  /** What a lookup among a menu's children looks for. */
  datatype Key = NameOf | MenuOf(name: string)

  predicate Matches(key: Key, n: Node) {
    match key
    case NameOf => Is(n, "Name")
    case MenuOf(name) => IsMenu(n, name)
  }

  function First(ns: seq<Node>, key: Key): Option<Node> {
    if ns == [] then None else if Matches(key, ns[0]) then Some(ns[0]) else First(ns[1..], key)
  }

  lemma {:induction false} FirstMenu(ns: seq<Node>, name: string)
    ensures var k := MenuIndex(ns, name); First(ns, MenuOf(name)) == if k < |ns| then Some(ns[k]) else None
  {
    if ns != [] && !IsMenu(ns[0], name) { FirstMenu(ns[1..], name); }
  }

  lemma {:induction false} FirstName(ns: seq<Node>)
    ensures var k := FirstTag(ns, "Name"); First(ns, NameOf) == if k < |ns| then Some(ns[k]) else None
  {
    if ns != [] && !Is(ns[0], "Name") { FirstName(ns[1..]); }
  }

  lemma {:induction false} FirstConcat(a: seq<Node>, b: seq<Node>, key: Key)
    ensures First(a + b, key) == if First(a, key).Some? then First(a, key) else First(b, key)
  {
    if a == [] {
      assert a + b == b;
    } else {
      assert (a + b)[1..] == a[1..] + b;
      FirstConcat(a[1..], b, key);
    }
  }

  /** Replacing children that the lookup does not stop at by others that it does not stop at. */
  lemma {:induction false} FirstSame(a: seq<Node>, b: seq<Node>, key: Key)
    requires |a| == |b| && forall i :: 0 <= i < |a| ==> a[i] == b[i] || (!Matches(key, a[i]) && !Matches(key, b[i]))
    ensures First(a, key) == First(b, key)
  {
    if a != [] {
      FirstSame(a[1..], b[1..], key);
    }
  }

  lemma {:induction false} FirstDropped(ns: seq<Node>, tags: set<string>, key: Key)
    requires "Name" !in tags && "Menu" !in tags
    ensures First(Drop(ns, tags), key) == First(ns, key)
  {
    if ns != [] {
      var k := |ns| - 1;
      FirstDropped(ns[..k], tags, key);
      FirstConcat(ns[..k], [ns[k]], key);
      FirstConcat(Drop(ns[..k], tags), if ns[k].Element? && ns[k].tag in tags then [] else [ns[k]], key);
      assert ns == ns[..k] + [ns[k]];
    }
  }

  lemma FirstListed(ns: seq<Node>, tag: string, id: string, key: Key)
    requires tag == "Include" || tag == "Exclude"
    ensures First(List(ns, tag, id), key) == First(ns, key)
  {
    var k := LastTag(ns, tag);
    if k < |ns| {
      FirstSame(ns, List(ns, tag, id), key);
    } else {
      FirstConcat(ns, [Element(tag, map[], [FileNode(id)])], key);
    }
  }

  /** Edits of a menu leave its name and its submenus alone. */
  lemma FirstEdited(ns: seq<Node>, op: Op, key: Key)
    ensures First(Edited(ns, op), key) == First(ns, key)
  {
    match op
    case Add(id) => FirstSame(ns, Purge(ns, id), key); FirstListed(Purge(ns, id), "Include", id, key);
    case Remove(id) => FirstSame(ns, Purge(ns, id), key); FirstListed(Purge(ns, id), "Exclude", id, key);
    case AddDirectory(id) => FirstConcat(ns, [Leaf("Directory", id)], key);
    case Delete =>
      FirstDropped(ns, {"Deleted", "NotDeleted"}, key);
      FirstConcat(Drop(ns, {"Deleted", "NotDeleted"}), [Element("Deleted", map[], [])], key);
    case Undelete =>
      FirstDropped(ns, {"Deleted", "NotDeleted"}, key);
      FirstConcat(Drop(ns, {"Deleted", "NotDeleted"}), [Element("NotDeleted", map[], [])], key);
    case SetLayout(items) =>
      FirstDropped(ns, {"Layout"}, key);
      FirstConcat(Drop(ns, {"Layout"}), [Element("Layout", map[], LayoutNodes(items))], key);
    case Move(from, to) => FirstConcat(ns, [Element("Move", map[], [Leaf("Old", from), Leaf("New", to)])], key);
  }

  // ---- counting mentions ----

  lemma {:induction false} CountWithoutFirst(ns: seq<Node>, id: string, other: string)
    ensures Count(WithoutFirst(ns, id), other) ==
      Count(ns, other) - if other == id && Count(ns, id) > 0 then 1 else 0
  {
    if ns != [] && !IsFile(ns[0], id) { CountWithoutFirst(ns[1..], id, other); }
  }

  lemma {:induction false} CountConcat(a: seq<Node>, b: seq<Node>, id: string)
    ensures Count(a + b, id) == Count(a, id) + Count(b, id)
  {
    if a == [] {
      assert a + b == b;
    } else {
      assert (a + b)[1..] == a[1..] + b;
      CountConcat(a[1..], b, id);
    }
  }

  lemma {:induction false} MentionsConcat(a: seq<Node>, b: seq<Node>, tag: string, id: string)
    ensures Mentions(a + b, tag, id) == Mentions(a, tag, id) + Mentions(b, tag, id)
  {
    if a == [] {
      assert a + b == b;
    } else {
      assert (a + b)[1..] == a[1..] + b;
      MentionsConcat(a[1..], b, tag, id);
    }
  }

  lemma MentionsOne(n: Node, tag: string, id: string)
    ensures Mentions([n], tag, id) == if Is(n, tag) then Count(n.children, id) else 0
  {
    assert [n][1..] == [];
  }

  lemma CountFile(id: string, other: string)
    ensures Count([FileNode(id)], other) == if other == id then 1 else 0
  {
    assert TextOfAll([Text(id)]) == id + TextOfAll([Text(id)][1..]);
    assert [FileNode(id)][1..] == [];
  }

  lemma TidyCons(ns: seq<Node>, tag: string, id: string)
    requires ns != []
    ensures Tidy(ns, tag, id) <==> (Is(ns[0], tag) ==> Count(ns[0].children, id) <= 1) && Tidy(ns[1..], tag, id)
  {
    if Tidy(ns[1..], tag, id) && (Is(ns[0], tag) ==> Count(ns[0].children, id) <= 1) {
      forall i | 0 <= i < |ns| && Is(ns[i], tag) ensures Count(ns[i].children, id) <= 1 {
        if i > 0 { assert ns[1..][i - 1] == ns[i]; }
      }
    }
    if Tidy(ns, tag, id) {
      forall i | 0 <= i < |ns[1..]| && Is(ns[1..][i], tag) ensures Count(ns[1..][i].children, id) <= 1 {
        assert ns[1..][i] == ns[i + 1];
      }
    }
  }

  /** Purging takes one mention out of each list that has any: all of them are gone just if no list had it twice. */
  lemma {:induction false} MentionsPurged(ns: seq<Node>, tag: string, id: string, other: string)
    requires tag == "Include" || tag == "Exclude"
    ensures other != id ==> Mentions(Purge(ns, id), tag, other) == Mentions(ns, tag, other)
    ensures Mentions(Purge(ns, id), tag, id) == 0 <==> Tidy(ns, tag, id)
  {
    if ns != [] {
      hide Tidy, WithoutFirst, Count;
      assert Purge(ns, id)[1..] == Purge(ns[1..], id);
      MentionsPurged(ns[1..], tag, id, other);
      TidyCons(ns, tag, id);
      if Is(ns[0], tag) {
        CountWithoutFirst(ns[0].children, id, other);
        CountWithoutFirst(ns[0].children, id, id);
      }
    }
  }

  lemma MentionsListed(ns: seq<Node>, tag: string, id: string, tag2: string, id2: string)
    ensures Mentions(List(ns, tag, id), tag2, id2) == Mentions(ns, tag2, id2) + if tag == tag2 && id == id2 then 1 else 0
  {
    hide Mentions, Count, FileNode;
    var k := LastTag(ns, tag);
    var file := FileNode(id);
    CountFile(id, id2);
    if k < |ns| {
      var e := ns[k].(children := ns[k].children + [file]);
      assert ns == ns[..k] + [ns[k]] + ns[k + 1..];
      assert List(ns, tag, id) == ns[..k] + [e] + ns[k + 1..];
      MentionsConcat(ns[..k], [ns[k]], tag2, id2);
      MentionsConcat(ns[..k] + [ns[k]], ns[k + 1..], tag2, id2);
      MentionsConcat(ns[..k], [e], tag2, id2);
      MentionsConcat(ns[..k] + [e], ns[k + 1..], tag2, id2);
      MentionsOne(ns[k], tag2, id2);
      MentionsOne(e, tag2, id2);
      CountConcat(ns[k].children, [file], id2);
    } else {
      MentionsConcat(ns, [Element(tag, map[], [file])], tag2, id2);
      MentionsOne(Element(tag, map[], [file]), tag2, id2);
    }
  }

  lemma {:induction false} MentionsDropped(ns: seq<Node>, tags: set<string>, tag: string, id: string)
    requires tag !in tags
    ensures Mentions(Drop(ns, tags), tag, id) == Mentions(ns, tag, id)
  {
    if ns != [] {
      var k := |ns| - 1;
      MentionsDropped(ns[..k], tags, tag, id);
      MentionsConcat(ns[..k], [ns[k]], tag, id);
      MentionsConcat(Drop(ns[..k], tags), if ns[k].Element? && ns[k].tag in tags then [] else [ns[k]], tag, id);
      assert ns == ns[..k] + [ns[k]];
    }
  }

  predicate Listing(tag: string) { tag == "Include" || tag == "Exclude" }

  /** An entry edit leaves exactly one mention, of the right kind, just if no list mentioned the entry twice. */
  lemma EntryEdited(ns: seq<Node>, op: Op)
    requires op.Add? || op.Remove?
    ensures var r := Edited(ns, op);
      && (Mentions(r, if op.Add? then "Include" else "Exclude", op.id) == 1 <==> Tidy(ns, if op.Add? then "Include" else "Exclude", op.id))
      && (Mentions(r, if op.Add? then "Exclude" else "Include", op.id) == 0 <==> Tidy(ns, if op.Add? then "Exclude" else "Include", op.id))
  {
    var tag := if op.Add? then "Include" else "Exclude";
    MentionsPurged(ns, "Include", op.id, op.id);
    MentionsPurged(ns, "Exclude", op.id, op.id);
    MentionsListed(Purge(ns, op.id), tag, op.id, "Include", op.id);
    MentionsListed(Purge(ns, op.id), tag, op.id, "Exclude", op.id);
  }

  /** Edits of other entries, and edits that are not about entries, leave the mentions of an entry alone. */
  lemma OthersEdited(ns: seq<Node>, op: Op, tag: string, id: string)
    requires Listing(tag) && (op.Add? || op.Remove? ==> op.id != id)
    ensures Mentions(Edited(ns, op), tag, id) == Mentions(ns, tag, id)
  {
    match op
    case Add(x) => MentionsPurged(ns, tag, x, id); MentionsListed(Purge(ns, x), "Include", x, tag, id);
    case Remove(x) => MentionsPurged(ns, tag, x, id); MentionsListed(Purge(ns, x), "Exclude", x, tag, id);
    case AddDirectory(x) => MentionsConcat(ns, [Leaf("Directory", x)], tag, id);
    case Delete =>
      MentionsDropped(ns, {"Deleted", "NotDeleted"}, tag, id);
      MentionsConcat(Drop(ns, {"Deleted", "NotDeleted"}), [Element("Deleted", map[], [])], tag, id);
    case Undelete =>
      MentionsDropped(ns, {"Deleted", "NotDeleted"}, tag, id);
      MentionsConcat(Drop(ns, {"Deleted", "NotDeleted"}), [Element("NotDeleted", map[], [])], tag, id);
    case SetLayout(items) =>
      MentionsDropped(ns, {"Layout"}, tag, id);
      MentionsConcat(Drop(ns, {"Layout"}), [Element("Layout", map[], LayoutNodes(items))], tag, id);
    case Move(from, to) => MentionsConcat(ns, [Element("Move", map[], [Leaf("Old", from), Leaf("New", to)])], tag, id);
  }

  // ---- edits deep in the tree ----

  lemma {:induction false} FirstAt(ns: seq<Node>, k: nat, key: Key)
    requires k < |ns| && Matches(key, ns[k]) && forall j :: 0 <= j < k ==> !Matches(key, ns[j])
    ensures First(ns, key) == Some(ns[k])
  {
    if k > 0 {
      assert !Matches(key, ns[0]);
      FirstAt(ns[1..], k - 1, key);
    }
  }

  lemma NameIs(n: Node)
    requires n.Element?
    ensures MenuName(n) == match First(n.children, NameOf) case None => "" case Some(m) => TextOf(m)
  {
    FirstName(n.children);
  }

  lemma NewMenuNamed(name: string)
    ensures IsMenu(NewMenu(name), name)
  {
    assert TextOfAll([Text(name)]) == name + TextOfAll([Text(name)][1..]);
  }

  /** An edit below or at a menu does not rename it. */
  lemma NameKept(n: Node, names: seq<string>, op: Op)
    requires n.Element?
    ensures MenuName(Edit(n, names, op)) == MenuName(n)
  {
    var r := Edit(n, names, op);
    NameIs(n);
    NameIs(r);
    if names == [] {
      FirstEdited(n.children, op, NameOf);
    } else {
      var k := MenuIndex(n.children, names[0]);
      if k < |n.children| {
        FirstSame(n.children, r.children, NameOf);
      } else {
        FirstConcat(n.children, [Edit(NewMenu(names[0]), names[1..], op)], NameOf);
      }
    }
  }

  /** The menu that the first name stands for, or the one to be created for it. */
  function Target(n: Node, name: string): (m: Node)
    requires n.Element?
    ensures m.Element?
  {
    var k := MenuIndex(n.children, name);
    if k < |n.children| then n.children[k] else NewMenu(name)
  }

  /** After an edit the first name stands for the edited menu, other names for what they stood for before. */
  lemma EditedMenus(n: Node, names: seq<string>, op: Op, name: string)
    requires n.Element? && names != []
    ensures First(Edit(n, names, op).children, MenuOf(name)) ==
      if name == names[0] then Some(Edit(Target(n, name), names[1..], op)) else First(n.children, MenuOf(name))
  {
    hide Edited;
    var r, k := Edit(n, names, op), MenuIndex(n.children, names[0]);
    var m := Edit(Target(n, names[0]), names[1..], op);
    NewMenuNamed(names[0]);
    NameKept(Target(n, names[0]), names[1..], op);
    assert IsMenu(m, names[0]);
    if k < |n.children| {
      if name == names[0] { FirstAt(r.children, k, MenuOf(name)); } else { FirstSame(n.children, r.children, MenuOf(name)); }
    } else {
      FirstConcat(n.children, [m], MenuOf(name));
      FirstMenu(n.children, names[0]);
      assert [m][0] == m;
    }
  }

  lemma FindFirst(n: Node, names: seq<string>)
    requires n.Element? && names != []
    ensures Find(n, names) == match First(n.children, MenuOf(names[0])) case None => None case Some(m) => Find(m, names[1..])
  {
    FirstMenu(n.children, names[0]);
  }

  /** The children of the menu with these names, as an edit finds or creates it. */
  function ChildrenAt(n: Node, names: seq<string>): seq<Node> {
    var m := Find(n, names);
    if m.Some? then m.value.children
    else if names == [] then [] else [Leaf("Name", names[|names| - 1])]
  }

  /** The edited menu is the one its names find afterwards. */
  lemma {:induction false} FindsEdited(n: Node, names: seq<string>, op: Op)
    requires n.Element?
    ensures var m := Find(Edit(n, names, op), names); m.Some? && m.value.children == Edited(ChildrenAt(n, names), op)
    decreases |names|
  {
    hide Edited;
    if names != [] {
      var t := Target(n, names[0]);
      FindFirst(n, names);
      FindFirst(Edit(n, names, op), names);
      EditedMenus(n, names, op, names[0]);
      FindsEdited(t, names[1..], op);
      FirstMenu(n.children, names[0]);
      if MenuIndex(n.children, names[0]) == |n.children| { NothingInNew(names[0], names[1..]); }
    }
  }

  /** A new menu has no submenus. */
  lemma NothingInNew(name: string, names: seq<string>)
    ensures names != [] ==> Find(NewMenu(name), names) == None
    ensures names == [] ==> ChildrenAt(NewMenu(name), names) == [Leaf("Name", name)]
  {
    if names != [] {
      FindFirst(NewMenu(name), names);
      assert NewMenu(name).children[1..] == [];
    }
  }

  lemma MentionsInNew(name: string, names: seq<string>, tag: string, id: string)
    requires Listing(tag)
    ensures MentionsIn(NewMenu(name), names, tag, id) == 0
  {
    NothingInNew(name, names);
    MentionsOne(Leaf("Name", name), tag, id);
  }

  /** Every other menu lists what it listed before. */
  lemma {:induction false} OtherMenusKept(n: Node, names: seq<string>, op: Op, others: seq<string>, tag: string, id: string)
    requires n.Element? && Listing(tag) && others != names
    ensures MentionsIn(Edit(n, names, op), others, tag, id) == MentionsIn(n, others, tag, id)
    decreases |names|
  {
    hide Edited;
    var r := Edit(n, names, op);
    if names == [] {
      FindFirst(n, others);
      FindFirst(r, others);
      FirstEdited(n.children, op, MenuOf(others[0]));
    } else if others == [] {
      MenusListNothing(n, names, op, tag, id);
    } else {
      FindFirst(n, others);
      FindFirst(r, others);
      EditedMenus(n, names, op, others[0]);
      if others[0] == names[0] {
        assert others == [others[0]] + others[1..] && names == [names[0]] + names[1..];
        OtherMenusKept(Target(n, names[0]), names[1..], op, others[1..], tag, id);
        FirstMenu(n.children, names[0]);
        if MenuIndex(n.children, names[0]) == |n.children| { MentionsInNew(names[0], others[1..], tag, id); }
      }
    }
  }

  /** Submenus are no part of what a menu itself lists. */
  lemma MenusListNothing(n: Node, names: seq<string>, op: Op, tag: string, id: string)
    requires n.Element? && names != [] && Listing(tag)
    ensures Mentions(Edit(n, names, op).children, tag, id) == Mentions(n.children, tag, id)
  {
    hide Edited, Mentions;
    var c, k := n.children, MenuIndex(n.children, names[0]);
    if k < |c| {
      var m := Edit(c[k], names[1..], op);
      assert c == c[..k] + [c[k]] + c[k + 1..] && c[k := m] == c[..k] + [m] + c[k + 1..];
      MentionsConcat(c[..k], [c[k]], tag, id);
      MentionsConcat(c[..k] + [c[k]], c[k + 1..], tag, id);
      MentionsConcat(c[..k], [m], tag, id);
      MentionsConcat(c[..k] + [m], c[k + 1..], tag, id);
      MentionsOne(c[k], tag, id);
      MentionsOne(m, tag, id);
    } else {
      var m := Edit(NewMenu(names[0]), names[1..], op);
      MentionsConcat(c, [m], tag, id);
      MentionsOne(m, tag, id);
    }
  }

  /** What an edit does to a menu's mentions of an entry, seen from the whole document. */
  lemma MentionsAfter(n: Node, names: seq<string>, op: Op, others: seq<string>, tag: string, id: string)
    requires n.Element? && Listing(tag)
    ensures others != names || ((op.Add? || op.Remove?) ==> op.id != id) ==>
      MentionsIn(Edit(n, names, op), others, tag, id) == MentionsIn(n, others, tag, id)
  {
    hide Edited;
    if others != names {
      OtherMenusKept(n, names, op, others, tag, id);
    } else if op.Add? || op.Remove? ==> op.id != id {
      FindsEdited(n, names, op);
      OthersEdited(ChildrenAt(n, names), op, tag, id);
      if Find(n, names).None? {
        MentionsOne(Leaf("Name", names[|names| - 1]), tag, id);
      }
    }
  }

  /** The lists of the menu an edit is about mention the entry at most once each. */
  ghost predicate TidyAt(n: Node, names: seq<string>, id: string) {
    Tidy(ChildrenAt(n, names), "Include", id) && Tidy(ChildrenAt(n, names), "Exclude", id)
  }

  /** After an entry is added its menu includes it once and does not exclude it, after it is removed the other way
      round; and that is so just if no list of the menu mentioned it twice before. */
  lemma EntryDecided(n: Node, names: seq<string>, op: Op)
    requires n.Element? && (op.Add? || op.Remove?)
    ensures var r := Edit(n, names, op);
      MentionsIn(r, names, "Include", op.id) == (if op.Add? then 1 else 0)
      && MentionsIn(r, names, "Exclude", op.id) == (if op.Add? then 0 else 1)
      <==> TidyAt(n, names, op.id)
  {
    hide Edited, Tidy;
    FindsEdited(n, names, op);
    EntryEdited(ChildrenAt(n, names), op);
  }
}
