/**
 The menu file as the menu editor works on it: a document that is edited in place along paths, a queue of
 actions, and the entries removed so far. Elements of the document are reached by their positions.
 */
module MenuFile {
  import opened Strings
  import opened MenuMeaning
  import opened MenuMembership
  import opened MenuModel
  import opened MenuRuns

  /** The positions of an element below another. */
  type Place = seq<nat>

  predicate ValidAt(n: Node, p: Place)
    decreases |p|
  {
    n.Element? && (p == [] || (p[0] < |n.children| && ValidAt(n.children[p[0]], p[1..])))
  }

  function At(n: Node, p: Place): (m: Node)
    requires ValidAt(n, p)
    ensures m.Element?
    decreases |p|
  {
    if p == [] then n else At(n.children[p[0]], p[1..])
  }

  function Put(n: Node, p: Place, m: Node): (r: Node)
    requires ValidAt(n, p) && m.Element?
    ensures r.Element?
    decreases |p|
  {
    if p == [] then m else n.(children := n.children[p[0] := Put(n.children[p[0]], p[1..], m)])
  }

  /** The document with the menus that are missing on the way, and the place of the last of them. */
  function Made(n: Node, names: seq<string>): (r: Node)
    requires n.Element?
    ensures r.Element?
    decreases |names|
  {
    if names == [] then n
    else
      var k := MenuIndex(n.children, names[0]);
      if k < |n.children| then n.(children := n.children[k := Made(n.children[k], names[1..])])
      else n.(children := n.children + [Made(NewMenu(names[0]), names[1..])])
  }

  function MadePlace(n: Node, names: seq<string>): (p: Place)
    requires n.Element?
    ensures ValidAt(Made(n, names), p)
    decreases |names|
  {
    if names == [] then []
    else
      var k := MenuIndex(n.children, names[0]);
      var p := [k] + MadePlace(if k < |n.children| then n.children[k] else NewMenu(names[0]), names[1..]);
      assert p[0] == k && p[1..] == MadePlace(if k < |n.children| then n.children[k] else NewMenu(names[0]), names[1..]);
      p
  }

  function EditedAt(m: Node, op: Op): Node
    requires m.Element?
  {
    m.(children := Edited(m.children, op))
  }

  /** A place in the k-th child. */
  lemma PutFirst(n: Node, k: nat, p: Place, x: Node)
    requires n.Element? && k < |n.children| && ValidAt(n.children[k], p) && x.Element?
    ensures ValidAt(n, [k] + p) && At(n, [k] + p) == At(n.children[k], p)
    ensures Put(n, [k] + p, x) == n.(children := n.children[k := Put(n.children[k], p, x)])
  {
    assert ([k] + p)[0] == k && ([k] + p)[1..] == p;
  }

  /** An edit is what happens at the place that is found or made. */
  lemma {:induction false} EditIsPut(n: Node, names: seq<string>, op: Op)
    requires n.Element?
    ensures Edit(n, names, op) == Put(Made(n, names), MadePlace(n, names), EditedAt(At(Made(n, names), MadePlace(n, names)), op))
    decreases |names|
  {
    hide Edited, Put, At, ValidAt;
    if names == [] {
      PutTop(n, EditedAt(n, op));
    } else {
      var k := MenuIndex(n.children, names[0]);
      var sub := if k < |n.children| then n.children[k] else NewMenu(names[0]);
      EditIsPut(sub, names[1..], op);
      var d, p := Made(n, names), MadePlace(sub, names[1..]);
      var m := EditedAt(At(Made(sub, names[1..]), p), op);
      PutFirst(d, k, p, m);
      if k == |n.children| {
        assert d.children[k := Put(d.children[k], p, m)] == n.children + [Put(d.children[k], p, m)];
      } else {
        assert d.children[k := Put(d.children[k], p, m)] == n.children[k := Put(d.children[k], p, m)];
      }
    }
  }

  lemma PutTop(n: Node, m: Node)
    requires n.Element? && m.Element?
    ensures ValidAt(n, []) && At(n, []) == n && Put(n, [], m) == m
  {
  }

  // ---- places ----

  lemma {:induction false} PutThere(n: Node, p: Place, m: Node)
    requires ValidAt(n, p) && m.Element?
    ensures ValidAt(Put(n, p, m), p) && At(Put(n, p, m), p) == m
    decreases |p|
  {
    if p != [] { PutThere(n.children[p[0]], p[1..], m); }
  }

  lemma {:induction false} PutSame(n: Node, p: Place)
    requires ValidAt(n, p)
    ensures Put(n, p, At(n, p)) == n
    decreases |p|
  {
    if p != [] { PutSame(n.children[p[0]], p[1..]); }
  }

  lemma {:induction false} PutAgain(n: Node, p: Place, m: Node, x: Node)
    requires ValidAt(n, p) && m.Element? && x.Element?
    ensures ValidAt(Put(n, p, m), p) && Put(Put(n, p, m), p, x) == Put(n, p, x)
    decreases |p|
  {
    if p != [] {
      PutAgain(n.children[p[0]], p[1..], m, x);
      var a, b := Put(n.children[p[0]], p[1..], m), Put(n.children[p[0]], p[1..], x);
      assert n.children[p[0] := a][p[0] := b] == n.children[p[0] := b];
    }
  }

  /** A place below another one. */
  lemma {:induction false} PutBelow(n: Node, p: Place, q: Place, x: Node)
    requires ValidAt(n, p) && ValidAt(At(n, p), q) && x.Element?
    ensures ValidAt(n, p + q) && At(n, p + q) == At(At(n, p), q)
    ensures Put(n, p + q, x) == Put(n, p, Put(At(n, p), q, x))
    decreases |p|
  {
    if p == [] {
      assert p + q == q;
    } else {
      PutBelow(n.children[p[0]], p[1..], q, x);
      PutFirst(n, p[0], p[1..] + q, x);
      assert [p[0]] + (p[1..] + q) == p + q;
    }
  }

  /** A child at the place p, replaced by x. */
  lemma PutChild(n: Node, p: Place, k: nat, x: Node)
    requires ValidAt(n, p) && k < |At(n, p).children| && At(n, p).children[k].Element? && x.Element?
    ensures ValidAt(n, p + [k]) && At(n, p + [k]) == At(n, p).children[k]
    ensures Put(n, p + [k], x) == Put(n, p, At(n, p).(children := At(n, p).children[k := x]))
  {
    hide At, Put, ValidAt;
    var m := At(n, p);
    PutTop(m.children[k], x);
    PutFirst(m, k, [], x);
    assert [k] + [] == [k];
    PutBelow(n, p, [k], x);
  }

  // ---- the file ----

  datatype ActionType = ADD_ENTRY | REMOVE_ENTRY | ADD_MENU | REMOVE_MENU | MOVE_MENU

  class ActionAtom {
    const action: ActionType
    const arg1: string
    const arg2: string

    constructor (action: ActionType, arg1: string, arg2: string)
      ensures this.action == action && this.arg1 == arg1 && this.arg2 == arg2
    {
      this.action, this.arg1, this.arg2 := action, arg1, arg2;
    }
  }

  /** The name under which a menu's description is filed: relative to the XDG directories if it is in one of them,
      otherwise what follows the last slash. */
  function EntryToDirId(path: string, relativeLocation: string -> string): (id: string)
    ensures var relative := relativeLocation(path);
      if path != "" && path[0] == '/' && relative != "" && relative[0] != '/' then id == relative
      else '/' !in id && |id| <= |path| && path[|path| - |id|..] == id && (|id| < |path| ==> path[|path| - |id| - 1] == '/')
  {
    FileNameIs(path);
    var local := if path != "" && path[0] == '/' then relativeLocation(path) else "";
    if local == "" || local[0] == '/' then FileName(path) else local
  }

  class MenuFile {
    const relativeLocation: string -> string   // what the library makes of a path in the XDG directories
    var doc: Node
    var dirty: bool
    var actionList: seq<ActionAtom>
    var removedEntries: seq<string>
    var saved: Option<Node>   // what the file holds, once it was written

    ghost predicate Valid() reads this { doc.Element? }

    constructor (relativeLocation: string -> string)
      ensures this.relativeLocation == relativeLocation
      ensures Valid() && doc == NEW_DOCUMENT && !dirty && actionList == [] && removedEntries == [] && saved == None
    {
      this.relativeLocation := relativeLocation;
      doc, dirty, actionList, removedEntries, saved := NEW_DOCUMENT, false, [], [], None;
    }

    // ---- finding menus ----

    /** The text of the first Name child. */
    method NameOfMenu(e: Node) returns (name: string)
      requires e.Element?
      ensures name == MenuName(e)
    {
      hide TextOf;
      var i := 0;
      while i < |e.children|
        invariant 0 <= i <= |e.children| && forall j :: 0 <= j < i ==> !Is(e.children[j], "Name")
      {
        if Is(e.children[i], "Name") {
          FirstTagIs(e.children, "Name", i);
          return TextOf(e.children[i]);
        }
        i := i + 1;
      }
      FirstTagIs(e.children, "Name", i);
      return "";
    }

    /** The first child that is a menu with this name. */
    method ChildMenu(e: Node, menuNodeName: string) returns (k: nat)
      requires e.Element?
      ensures k <= |e.children| && (k < |e.children| ==> IsMenu(e.children[k], menuNodeName))
      ensures forall j :: 0 <= j < k ==> !IsMenu(e.children[j], menuNodeName)
    {
      hide MenuName;
      k := 0;
      while k < |e.children|
        invariant 0 <= k <= |e.children| && forall j :: 0 <= j < k ==> !IsMenu(e.children[j], menuNodeName)
      {
        if Is(e.children[k], "Menu") {
          var name := NameOfMenu(e.children[k]);
          if name == menuNodeName { return; }
        }
        k := k + 1;
      }
    }

    method FindMenu(elem: Place, menuName: string, create: bool) returns (found: Option<Place>)
      requires ValidAt(doc, elem)
      modifies this`doc
      ensures ValidAt(doc, elem) && (found.Some? ==> ValidAt(doc, found.value))
      ensures create ==>
        && doc == Put(old(doc), elem, Made(At(old(doc), elem), Names(menuName)))
        && found == Some(elem + MadePlace(At(old(doc), elem), Names(menuName)))
      ensures !create ==>
        && doc == old(doc) && (found.Some? ==> Find(At(doc, elem), Names(menuName)) == Some(At(doc, found.value)))
        && (found.None? ==> Find(At(doc, elem), Names(menuName)) == None)
      decreases |menuName|
    {
      hide Names, ValidAt, At, Put, Made, MadePlace, MenuName, Find;
      var i := IndexOf(menuName, '/');
      var menuNodeName, subMenuName := menuName[..i], if i < |menuName| then menuName[i + 1..] else "";
      NamesStep(menuName, i);
      if i == 0 && menuName != "" {
        found := FindMenu(elem, subMenuName, create);
        return;
      }
      var e := At(doc, elem);
      if menuNodeName == "" {
        NothingToFind(doc, elem);
        return Some(elem);
      }
      var k := ChildMenu(e, menuNodeName);
      if k < |e.children| {
        MenuIndexIs(e.children, menuNodeName, k);
        FoundThere(doc, elem, k, Names(subMenuName));
        if subMenuName == "" {
          FoundHere(doc, elem, k);
          return Some(elem + [k]);
        }
        found := FindMenu(elem + [k], subMenuName, create);
        FoundPlace(old(doc), elem, Names(menuName));
        return;
      }
      MenuIndexIs(e.children, menuNodeName, k);
      if !create {
        NotFound(e, menuNodeName, Names(subMenuName));
        return None;
      }
      var newNameElem := Element("Name", map[], [Text(menuNodeName)]);
      var newElem := Element("Menu", map[], [newNameElem]);
      doc := Put(doc, elem, e.(children := e.children + [newElem]));
      MadeThere(old(doc), elem, menuNodeName, Names(subMenuName));
      if subMenuName == "" {
        MadeHere(old(doc), elem, menuNodeName);
        assert [menuNodeName] + [] == [menuNodeName];
        return Some(elem + [k]);
      }
      found := FindMenu(elem + [k], subMenuName, create);
    }

    /** The menu with this path, created if it is not there. */
    method Menu(menuName: string) returns (elem: Place)
      requires Valid()
      modifies this`doc
      ensures Valid() && doc == Made(old(doc), Names(menuName)) && elem == MadePlace(old(doc), Names(menuName))
      ensures ValidAt(doc, elem)
    {
      var found := FindMenu([], menuName, true);
      elem := found.value;
      assert [] + MadePlace(old(doc), Names(menuName)) == MadePlace(old(doc), Names(menuName));
    }

    // ---- changing a menu ----

    method AppendChild(elem: Place, child: Node)
      requires ValidAt(doc, elem)
      modifies this`doc
      ensures ValidAt(doc, elem) && doc == Put(old(doc), elem, Appended(At(old(doc), elem), [child]))
      ensures At(doc, elem) == Appended(At(old(doc), elem), [child])
    {
      PutThere(doc, elem, Appended(At(doc, elem), [child]));
      doc := Put(doc, elem, Appended(At(doc, elem), [child]));
    }

    /** Takes the first mention of an entry out of a list. */
    method RemoveFirstFile(elem: Place, appId: string)
      requires ValidAt(doc, elem)
      modifies this`doc
      ensures var e := At(old(doc), elem); doc == Put(old(doc), elem, e.(children := WithoutFirst(e.children, appId)))
    {
      hide Put, At, ValidAt, TextOf, WithoutFirst;
      var e := At(doc, elem);
      PutSame(doc, elem);
      var i := 0;
      while i < |e.children|
        invariant 0 <= i <= |e.children| && forall j :: 0 <= j < i ==> !IsFile(e.children[j], appId)
      {
        var e2 := e.children[i];
        if Is(e2, "Filename") {
          if TextOf(e2) == appId {
            WithoutFirstIs(e.children, appId, i);
            doc := Put(doc, elem, e.(children := e.children[..i] + e.children[i + 1..]));
            return;
          }
        }
        i := i + 1;
      }
      WithoutFirstIs(e.children, appId, i);
    }

    /** Takes earlier mentions of an entry out of the lists of a menu, and says where the last lists are. */
    method PurgeIncludesExcludes(elem: Place, appId: string) returns (excludeNode: Option<nat>, includeNode: Option<nat>)
      requires ValidAt(doc, elem)
      modifies this`doc
      ensures ValidAt(doc, elem)
      ensures var e := At(old(doc), elem);
        && doc == Put(old(doc), elem, e.(children := Purge(e.children, appId)))
        && At(doc, elem) == e.(children := Purge(e.children, appId))
        && includeNode == LastPlace(e.children, "Include") && excludeNode == LastPlace(e.children, "Exclude")
    {
      hide Put, At, ValidAt, WithoutFirst, LastPlace, PurgedNode;
      excludeNode, includeNode := None, None;
      ghost var e0 := At(doc, elem);
      ghost var c := e0.children;
      PurgeStart(doc, elem, appId);
      var n := |At(doc, elem).children|;
      for k := 0 to n
        invariant ValidAt(doc, elem) && doc == Put(old(doc), elem, PurgedNode(e0, k, appId))
        invariant includeNode == LastPlace(c[..k], "Include") && excludeNode == LastPlace(c[..k], "Exclude")
      {
        LastPlaceStep(c, k, "Include");
        LastPlaceStep(c, k, "Exclude");
        PurgeStep(old(doc), doc, elem, e0, k, appId);
        var e := At(doc, elem).children[k];
        if Is(e, "Include") { includeNode := Some(k); }
        if Is(e, "Exclude") { excludeNode := Some(k); }
        if Is(e, "Include") || Is(e, "Exclude") { RemoveFirstFile(elem + [k], appId); }
      }
      PurgeDone(old(doc), elem, e0, appId);
      assert c[..n] == c;
    }

    /** Lists an entry in the last list of a kind, which is created if there is none. */
    method ListEntry(elem: Place, node: Option<nat>, tag: string, menuId: string)
      requires ValidAt(doc, elem) && node == LastPlace(At(doc, elem).children, tag)
      modifies this`doc
      ensures doc == Put(old(doc), elem, At(old(doc), elem).(children := List(At(old(doc), elem).children, tag, menuId)))
    {
      hide Put, At, ValidAt, LastTag;
      var k: nat;
      var e0 := At(doc, elem);
      if node.None? {
        k := |e0.children|;
        AppendChild(elem, Element(tag, map[], []));
      } else {
        k := node.value;
        PutSame(doc, elem);
      }
      ListStep(old(doc), doc, elem, k, tag, menuId);
      AppendChild(elem + [k], FileNode(menuId));
    }

    method AddEntry(menuName: string, menuId: string)
      requires Valid()
      modifies this`doc, this`dirty, this`removedEntries
      ensures Valid() && doc == Edit(old(doc), Names(menuName), Add(menuId)) && dirty
      ensures removedEntries == NoteRemoved(old(removedEntries), Add(menuId))
    {
      hide Put, At, ValidAt, Names, Made, MadePlace, Edit, List, Purge;
      dirty := true;
      removedEntries := RemoveAll(removedEntries, menuId);
      EditIsPut(doc, Names(menuName), Add(menuId));
      var elem := Menu(menuName);
      ghost var d := doc;
      var excludeNode, includeNode := PurgeIncludesExcludes(elem, menuId);
      PurgedPlace(At(d, elem).children, menuId, "Include");
      ghost var purged := At(doc, elem);
      ListEntry(elem, includeNode, "Include", menuId);
      PutAgain(d, elem, purged, purged.(children := List(purged.children, "Include", menuId)));
    }

    method RemoveEntry(menuName: string, menuId: string)
      requires Valid()
      modifies this`doc, this`dirty, this`removedEntries
      ensures Valid() && doc == Edit(old(doc), Names(menuName), Remove(menuId)) && dirty
      ensures removedEntries == NoteRemoved(old(removedEntries), Remove(menuId))
    {
      hide Put, At, ValidAt, Names, Made, MadePlace, Edit, List, Purge;
      dirty := true;
      removedEntries := removedEntries + [menuId];
      EditIsPut(doc, Names(menuName), Remove(menuId));
      var elem := Menu(menuName);
      ghost var d := doc;
      var excludeNode, includeNode := PurgeIncludesExcludes(elem, menuId);
      PurgedPlace(At(d, elem).children, menuId, "Exclude");
      ghost var purged := At(doc, elem);
      ListEntry(elem, excludeNode, "Exclude", menuId);
      PutAgain(d, elem, purged, purged.(children := List(purged.children, "Exclude", menuId)));
    }

    method AddMenu(menuName: string, menuFile: string)
      requires Valid()
      modifies this`doc, this`dirty
      ensures Valid() && dirty
      ensures doc == Edit(old(doc), Names(menuName), AddDirectory(EntryToDirId(menuFile, relativeLocation)))
    {
      hide Put, At, ValidAt, Names, Made, MadePlace, Edit;
      dirty := true;
      var id := EntryToDirId(menuFile, relativeLocation);
      EditIsPut(doc, Names(menuName), AddDirectory(id));
      var elem := Menu(menuName);
      AppendChild(elem, Leaf("Directory", id));
    }

    /** Takes every child with one of these tags out of a menu. */
    method PurgeTags(elem: Place, tags: set<string>)
      requires ValidAt(doc, elem)
      modifies this`doc
      ensures ValidAt(doc, elem)
      ensures var e := At(old(doc), elem);
        doc == Put(old(doc), elem, e.(children := Drop(e.children, tags))) && At(doc, elem) == e.(children := Drop(e.children, tags))
    {
      hide Put, At, ValidAt, DroppedNode;
      ghost var e0 := At(doc, elem);
      DropStart(doc, elem, tags);
      var i, pos := 0, 0;
      var n := |At(doc, elem).children|;
      while i < n
        invariant 0 <= i <= n == |e0.children| && pos == |Drop(e0.children[..i], tags)|
        invariant ValidAt(doc, elem) && doc == Put(old(doc), elem, DroppedNode(e0, i, tags))
      {
        DropStep(old(doc), doc, elem, e0, i, tags);
        var e := At(doc, elem);
        if e.children[pos].Element? && e.children[pos].tag in tags {
          doc := Put(doc, elem, e.(children := e.children[..pos] + e.children[pos + 1..]));
        } else {
          pos := pos + 1;
        }
        i := i + 1;
      }
      DropDone(old(doc), elem, e0, tags);
    }

    method Mark(menuName: string, op: Op)
      requires Valid() && (op == Delete || op == Undelete)
      modifies this`doc
      ensures Valid() && doc == Edit(old(doc), Names(menuName), op)
    {
      hide Put, At, ValidAt, Names, Made, MadePlace, Edit, Drop;
      EditIsPut(doc, Names(menuName), op);
      var elem := Menu(menuName);
      ghost var d := doc;
      PurgeTags(elem, {"Deleted", "NotDeleted"});
      ghost var dropped := At(doc, elem);
      var mark := Element(if op == Delete then "Deleted" else "NotDeleted", map[], []);
      AppendChild(elem, mark);
      PutAgain(d, elem, dropped, Appended(dropped, [mark]));
    }

    method RemoveMenu(menuName: string)
      requires Valid()
      modifies this`doc, this`dirty
      ensures Valid() && doc == Edit(old(doc), Names(menuName), Delete) && dirty
      ensures MarkedAt(doc, Names(menuName), true)
    {
      hide Edit, Names, MarkedAt, ChildrenAt;
      dirty := true;
      MarkLeft(doc, Names(menuName), Delete);
      Mark(menuName, Delete);
    }

    method SetLayout(menuName: string, layout: seq<string>)
      requires Valid()
      modifies this`doc, this`dirty
      ensures Valid() && doc == Edit(old(doc), Names(menuName), MenuModel.SetLayout(LayoutItems(layout))) && dirty
    {
      hide Put, At, ValidAt, Names, Made, MadePlace, Edit, Drop, LayoutNode, LayoutItemOf;
      dirty := true;
      var op := MenuModel.SetLayout(LayoutItems(layout));
      EditIsPut(doc, Names(menuName), op);
      var elem := Menu(menuName);
      ghost var d := doc;
      PurgeTags(elem, {"Layout"});
      ghost var dropped := At(doc, elem);
      var k := |At(doc, elem).children|;
      LayoutStart(d, elem, dropped);
      AppendChild(elem, Element("Layout", map[], []));
      for i := 0 to |layout|
        invariant ValidAt(doc, elem) && doc == Put(d, elem, Laid(dropped, LayoutItems(layout[..i]))) && dirty
      {
        LaidStep(d, elem, dropped, layout, i);
        AppendChild(elem + [k], LayoutNode(LayoutItemOf(layout[i])));
      }
      assert layout[..|layout|] == layout;
    }

    method MoveMenu(oldMenu: string, newMenu: string)
      requires Valid()
      modifies this`doc, this`dirty
      ensures Valid() && doc == Moved(old(doc), oldMenu, newMenu) && dirty
      ensures MarkedAt(doc, Names(newMenu), false)
    {
      hide Put, At, ValidAt, Names, Made, MadePlace, Edit, Split, Rooted, Joined, MarkedAt;
      dirty := true;
      MovedIsUndeleted(doc, oldMenu, newMenu);
      Mark(newMenu, Undelete);
      var oldMenuParts, newMenuParts := Split(oldMenu), Split(newMenu);
      var i, commonMenuName := CommonPart(oldMenuParts, newMenuParts);
      var oldMenuName := JoinBetween(oldMenuParts, i);
      var newMenuName := JoinBetween(newMenuParts, i);
      if oldMenuName == newMenuName { return; }  // can happen
      var op := Move(oldMenuName, newMenuName);
      EditIsPut(doc, Names(commonMenuName), op);
      var elem := Menu(commonMenuName);
      AppendChild(elem, Element("Move", map[], [Leaf("Old", oldMenuName), Leaf("New", newMenuName)]));
    }

    method CommonPart(a: seq<string>, b: seq<string>) returns (i: nat, commonMenuName: string)
      ensures i == Common(a, b) && commonMenuName == Rooted(a[..i])
    {
      i, commonMenuName := 0, "";
      while i < |a| && i < |b| && a[i] == b[i]
        invariant 0 <= i <= |a| && i <= |b| && a[..i] == b[..i] && commonMenuName == Rooted(a[..i])
      {
        assert a[..i + 1][..i] == a[..i];
        commonMenuName := commonMenuName + "/" + a[i];
        i := i + 1;
      }
      CommonIs(a, b, i);
    }

    method JoinBetween(parts: seq<string>, i: nat) returns (name: string)
      ensures name == Joined(Between(parts, i))
    {
      name := "";
      var j := i;
      while j < |parts| - 1
        invariant i <= j && (i < |parts| ==> j <= |parts| - 1) && (i >= |parts| ==> j == i)
        invariant i < |parts| ==> name == Joined(parts[i..j])
        invariant i >= |parts| ==> name == ""
      {
        assert parts[i..j + 1][..j - i] == parts[i..j];
        if j != i { name := name + "/"; }
        name := name + parts[j];
        j := j + 1;
      }
    }

    // ---- the queue ----

    method PerformAction(atom: ActionAtom)
      requires Valid()
      modifies this`doc, this`dirty, this`removedEntries
      ensures Valid() && dirty
      ensures doc == EditAll(old(doc), Requests(ActionOf(atom, relativeLocation)))
      ensures removedEntries == RemovedAfter(old(removedEntries), Requests(ActionOf(atom, relativeLocation)))
    {
      hide Edit, Names, EditAll, RemovedAfter, Moved;
      var arg1, arg2 := atom.arg1, atom.arg2;
      RequestsDo(doc, removedEntries, ActionOf(atom, relativeLocation));
      match atom.action
      case ADD_ENTRY => AddEntry(arg1, arg2);
      case REMOVE_ENTRY => RemoveEntry(arg1, arg2);
      case ADD_MENU => AddMenu(arg1, arg2);
      case REMOVE_MENU => RemoveMenu(arg1);
      case MOVE_MENU => MoveMenu(arg1, arg2);
    }

    method PushAction(action: ActionType, arg1: string, arg2: string) returns (atom: ActionAtom)
      modifies this`actionList
      ensures fresh(atom) && actionList == old(actionList) + [atom]
      ensures atom.action == action && atom.arg1 == arg1 && atom.arg2 == arg2
    {
      atom := new ActionAtom(action, arg1, arg2);
      actionList := actionList + [atom];
    }

    /** Only the last action can be taken back. */
    method PopAction(atom: ActionAtom)
      requires actionList != []
      modifies this`actionList
      ensures actionList == if old(actionList)[|old(actionList)| - 1] == atom then old(actionList)[..|old(actionList)| - 1] else old(actionList)
    {
      if actionList[|actionList| - 1] != atom { return; }
      actionList := actionList[..|actionList| - 1];
    }

    method Save(writable: bool) returns (ok: bool)
      modifies this`dirty, this`saved
      ensures ok == writable && (ok ==> !dirty && saved == Some(doc)) && (!ok ==> dirty == old(dirty) && saved == old(saved))
    {
      if !writable { return false; }
      saved := Some(doc);
      dirty := false;
      return true;
    }

    /** The queue is worked off in its order, the entries that were removed last are hidden, and the result is saved. */
    method PerformAllActions(writable: bool) returns (ok: bool)
      requires Valid()
      modifies this
      ensures Valid() && actionList == [] && removedEntries == []
      ensures doc == Performed(old(doc), old(removedEntries), AllRequests(ActionsOf(old(actionList), relativeLocation)))
      ensures ok && (old(actionList) != [] || old(removedEntries) != [] || old(dirty)) ==> saved == Some(doc) && !dirty
      ensures !ok ==> dirty && !writable
    {
      hide EditAll, RemovedAfter, Requests, AllRequests, RemoveAll, NoteRemoved, Edit, Names;
      ghost var d0, removed0, actions := doc, removedEntries, ActionsOf(actionList, relativeLocation);
      QueueStart(d0, removed0);
      for i := 0 to |actionList|
        invariant Valid() && actionList == old(actionList) && (i > 0 || old(dirty) ==> dirty) && saved == old(saved)
        invariant doc == EditAll(d0, AllRequests(actions[..i]))
        invariant removedEntries == RemovedAfter(removed0, AllRequests(actions[..i]))
      {
        QueueStep(d0, removed0, actions, i);
        PerformAction(actionList[i]);
      }
      assert actions[..|actionList|] == actions;
      actionList := [];
      ghost var d1 := doc;
      var removed := removedEntries;
      removedEntries := [];
      HideStart(d1, removed);
      for i := 0 to |removed|
        invariant Valid() && actionList == [] && (old(actionList) != [] || old(dirty) || i > 0 ==> dirty) && saved == old(saved)
        invariant doc == EditAll(d1, Hides(removed[..i]))
      {
        HideStep(d1, removed, i);
        AddEntry(HIDDEN, removed[i]);
      }
      assert removed[..|removed|] == removed;
      removedEntries := [];
      if old(actionList) == [] { NothingQueued(removed0); }
      if !dirty { return true; }
      ok := Save(writable);
    }

    method RestoreMenuSystem()
      modifies this`doc, this`dirty, this`actionList, this`removedEntries
      ensures Valid() && doc == NEW_DOCUMENT && !dirty && actionList == [] && removedEntries == []
    {
      dirty := false;
      actionList := [];
      removedEntries := [];
      doc := NEW_DOCUMENT;
    }
  }

  function ActionOf(a: ActionAtom, relativeLocation: string -> string): Action {
    match a.action
    case ADD_ENTRY => Action.AddEntry(a.arg1, a.arg2)
    case REMOVE_ENTRY => Action.RemoveEntry(a.arg1, a.arg2)
    case ADD_MENU => Action.AddMenu(a.arg1, EntryToDirId(a.arg2, relativeLocation))
    case REMOVE_MENU => Action.RemoveMenu(a.arg1)
    case MOVE_MENU => Action.MoveMenu(a.arg1, a.arg2)
  }

  function ActionsOf(atoms: seq<ActionAtom>, relativeLocation: string -> string): (r: seq<Action>)
    ensures |r| == |atoms| && forall i :: 0 <= i < |atoms| ==> r[i] == ActionOf(atoms[i], relativeLocation)
  {
    seq(|atoms|, i requires 0 <= i < |atoms| => ActionOf(atoms[i], relativeLocation))
  }

  /** What the edits of one action amount to. */
  lemma RequestsDo(doc: Node, removed: seq<string>, a: Action)
    requires doc.Element?
    ensures a.AddEntry? ==>
      EditAll(doc, Requests(a)) == Edit(doc, Names(a.menu), Add(a.id)) && RemovedAfter(removed, Requests(a)) == NoteRemoved(removed, Add(a.id))
    ensures a.RemoveEntry? ==>
      EditAll(doc, Requests(a)) == Edit(doc, Names(a.menu), Remove(a.id)) && RemovedAfter(removed, Requests(a)) == NoteRemoved(removed, Remove(a.id))
    ensures a.AddMenu? ==>
      EditAll(doc, Requests(a)) == Edit(doc, Names(a.menu), AddDirectory(a.id)) && RemovedAfter(removed, Requests(a)) == removed
    ensures a.RemoveMenu? ==>
      EditAll(doc, Requests(a)) == Edit(doc, Names(a.menu), Delete) && RemovedAfter(removed, Requests(a)) == removed
    ensures a.MoveMenu? ==>
      EditAll(doc, Requests(a)) == Moved(doc, a.oldMenu, a.newMenu) && RemovedAfter(removed, Requests(a)) == removed
  {
    hide Edit, Names, EditAll, Moved, RemovedAfter;
    var rs := Requests(a);
    OneEdit(doc, rs[0]);
    OneRemoved(removed, rs[0]);
    if a.MoveMenu? {
      MovedIsTwoEdits(doc, a.oldMenu, a.newMenu);
      if |rs| == 2 {
        assert rs == [rs[0]] + [rs[1]];
        RemovedConcat(removed, [rs[0]], [rs[1]]);
        OneRemoved(removed, rs[1]);
      } else {
        assert rs == [rs[0]];
      }
    }
  }

  lemma QueueStart(doc: Node, removed: seq<string>)
    requires doc.Element?
    ensures EditAll(doc, AllRequests([])) == doc && RemovedAfter(removed, AllRequests([])) == removed
  {
  }

  lemma NothingQueued(removed: seq<string>)
    ensures RemovedAfter(removed, AllRequests([])) == removed
  {
  }

  lemma QueueStep(doc: Node, removed: seq<string>, actions: seq<Action>, i: nat)
    requires doc.Element? && i < |actions|
    ensures var before := AllRequests(actions[..i]);
      && EditAll(doc, AllRequests(actions[..i + 1])) == EditAll(EditAll(doc, before), Requests(actions[i]))
      && RemovedAfter(removed, AllRequests(actions[..i + 1])) == RemovedAfter(RemovedAfter(removed, before), Requests(actions[i]))
  {
    hide EditAll, RemovedAfter, Requests;
    assert actions[..i + 1][..i] == actions[..i];
    EditAllConcat(doc, AllRequests(actions[..i]), Requests(actions[i]));
    RemovedConcat(removed, AllRequests(actions[..i]), Requests(actions[i]));
  }

  lemma HideStart(doc: Node, removed: seq<string>)
    requires doc.Element?
    ensures EditAll(doc, Hides(removed[..0])) == doc
  {
  }

  lemma HideStep(doc: Node, removed: seq<string>, i: nat)
    requires doc.Element? && i < |removed|
    ensures EditAll(doc, Hides(removed[..i + 1])) == Edit(EditAll(doc, Hides(removed[..i])), Names(HIDDEN), Add(removed[i]))
  {
    hide Edit, Names, EditAll;
    var last := Request(HIDDEN, Add(removed[i]));
    assert Hides(removed[..i + 1]) == Hides(removed[..i]) + [last];
    EditAllConcat(doc, Hides(removed[..i]), [last]);
    OneEdit(EditAll(doc, Hides(removed[..i])), last);
  }

  // ---- what the loops do ----

  function DroppedNode(e: Node, i: nat, tags: set<string>): (r: Node)
    requires e.Element? && i <= |e.children|
    ensures r.Element?
  {
    e.(children := Drop(e.children[..i], tags) + e.children[i..])
  }

  lemma DropStart(doc: Node, elem: Place, tags: set<string>)
    requires ValidAt(doc, elem)
    ensures doc == Put(doc, elem, DroppedNode(At(doc, elem), 0, tags)) && Drop(At(doc, elem).children[..0], tags) == []
  {
    PutSame(doc, elem);
    assert [] + At(doc, elem).children[0..] == At(doc, elem).children;
  }

  lemma DropStep(before: Node, doc: Node, elem: Place, e0: Node, i: nat, tags: set<string>)
    requires ValidAt(before, elem) && e0.Element? && i < |e0.children| && doc == Put(before, elem, DroppedNode(e0, i, tags))
    ensures var pos, x := |Drop(e0.children[..i], tags)|, e0.children[i];
      var e := DroppedNode(e0, i, tags);
      && ValidAt(doc, elem) && At(doc, elem) == e && pos < |e.children| && e.children[pos] == x
      && ValidAt(Put(before, elem, DroppedNode(e0, i + 1, tags)), elem)
      && (if x.Element? && x.tag in tags then
            && Put(doc, elem, e.(children := e.children[..pos] + e.children[pos + 1..])) == Put(before, elem, DroppedNode(e0, i + 1, tags))
            && |Drop(e0.children[..i + 1], tags)| == pos
          else doc == Put(before, elem, DroppedNode(e0, i + 1, tags)) && |Drop(e0.children[..i + 1], tags)| == pos + 1)
  {
    hide Put, At, ValidAt;
    var c := e0.children;
    var e, next := DroppedNode(e0, i, tags), DroppedNode(e0, i + 1, tags);
    var gone := Drop(c[..i], tags);
    assert c[..i + 1][..i] == c[..i] && c[..i + 1][i] == c[i];
    PutThere(before, elem, e);
    PutThere(before, elem, next);
    PutAgain(before, elem, e, next);
    if c[i].Element? && c[i].tag in tags {
      assert gone + [] == gone;
      assert e.children[..|gone|] + e.children[|gone| + 1..] == gone + c[i + 1..];
    } else {
      assert gone + c[i..] == gone + [c[i]] + c[i + 1..];
    }
  }

  lemma DropDone(before: Node, elem: Place, e0: Node, tags: set<string>)
    requires ValidAt(before, elem) && e0.Element?
    ensures DroppedNode(e0, |e0.children|, tags) == e0.(children := Drop(e0.children, tags))
    ensures ValidAt(Put(before, elem, DroppedNode(e0, |e0.children|, tags)), elem)
    ensures At(Put(before, elem, DroppedNode(e0, |e0.children|, tags)), elem) == e0.(children := Drop(e0.children, tags))
  {
    PutThere(before, elem, DroppedNode(e0, |e0.children|, tags));
    assert e0.children[..|e0.children|] == e0.children;
    assert Drop(e0.children, tags) + [] == Drop(e0.children, tags);
  }

  /** A menu with a layout behind its other children. */
  function Laid(m: Node, items: seq<LayoutItem>): (r: Node)
    requires m.Element?
    ensures r.Element?
  {
    Appended(m, [Element("Layout", map[], LayoutNodes(items))])
  }

  lemma LayoutStart(before: Node, elem: Place, m: Node)
    requires ValidAt(before, elem) && m.Element?
    ensures ValidAt(Put(before, elem, m), elem) && At(Put(before, elem, m), elem) == m
    ensures Put(Put(before, elem, m), elem, Appended(m, [Element("Layout", map[], [])])) == Put(before, elem, Laid(m, LayoutItems([])))
  {
    hide Put, At, ValidAt;
    PutThere(before, elem, m);
    PutAgain(before, elem, m, Appended(m, [Element("Layout", map[], [])]));
    assert LayoutNodes(LayoutItems([])) == [];
  }

  lemma LaidStep(before: Node, elem: Place, m: Node, layout: seq<string>, i: nat)
    requires ValidAt(before, elem) && m.Element? && i < |layout|
    ensures var doc, k := Put(before, elem, Laid(m, LayoutItems(layout[..i]))), |m.children|;
      && ValidAt(doc, elem + [k])
      && Put(doc, elem + [k], Appended(At(doc, elem + [k]), [LayoutNode(LayoutItemOf(layout[i]))]))
         == Put(before, elem, Laid(m, LayoutItems(layout[..i + 1])))
      && ValidAt(Put(before, elem, Laid(m, LayoutItems(layout[..i + 1]))), elem)
  {
    hide Put, At, ValidAt, LayoutNode, LayoutItemOf;
    var now, next := Laid(m, LayoutItems(layout[..i])), Laid(m, LayoutItems(layout[..i + 1]));
    var doc, k := Put(before, elem, now), |m.children|;
    PutThere(before, elem, now);
    PutThere(before, elem, next);
    var x := Appended(now.children[k], [LayoutNode(LayoutItemOf(layout[i]))]);
    PutChild(doc, elem, k, x);
    PutAgain(before, elem, now, next);
    assert LayoutNodes(LayoutItems(layout[..i + 1])) == LayoutNodes(LayoutItems(layout[..i])) + [LayoutNode(LayoutItemOf(layout[i]))];
    assert now.children[k := x] == next.children;
  }

  lemma {:induction false} CommonIs(a: seq<string>, b: seq<string>, n: nat)
    requires n <= |a| && n <= |b| && a[..n] == b[..n] && (n < |a| && n < |b| ==> a[n] != b[n])
    ensures Common(a, b) == n
  {
    if n > 0 {
      assert a[..n][0] == a[0] && b[..n][0] == b[0];
      assert a[1..][..n - 1] == a[..n][1..] && b[1..][..n - 1] == b[..n][1..];
      CommonIs(a[1..], b[1..], n - 1);
    }
  }

  function Appended(m: Node, more: seq<Node>): (r: Node)
    requires m.Element?
    ensures r.Element?
  {
    m.(children := m.children + more)
  }

  lemma {:induction false} WithoutFirstIs(ns: seq<Node>, id: string, i: nat)
    requires i <= |ns| && (i < |ns| ==> IsFile(ns[i], id)) && forall j :: 0 <= j < i ==> !IsFile(ns[j], id)
    ensures WithoutFirst(ns, id) == if i < |ns| then ns[..i] + ns[i + 1..] else ns
  {
    if ns != [] && i > 0 {
      assert !IsFile(ns[0], id);
      WithoutFirstIs(ns[1..], id, i - 1);
      if i < |ns| { assert [ns[0]] + (ns[1..][..i - 1] + ns[1..][i..]) == ns[..i] + ns[i + 1..]; }
    }
  }

  function LastPlace(ns: seq<Node>, tag: string): Option<nat> {
    var k := LastTag(ns, tag);
    if k < |ns| then Some(k) else None
  }

  lemma LastPlaceStep(ns: seq<Node>, k: nat, tag: string)
    requires k < |ns|
    ensures LastPlace(ns[..k + 1], tag) == if Is(ns[k], tag) then Some(k) else LastPlace(ns[..k], tag)
    ensures LastPlace(ns[..0], tag) == None
  {
    assert ns[..k + 1][..k] == ns[..k];
  }

  /** The first k children are purged already. */
  function PurgedTo(ns: seq<Node>, k: nat, id: string): (r: seq<Node>)
    requires k <= |ns|
    ensures |r| == |ns| && forall i :: 0 <= i < |ns| ==> r[i] == if i < k then Purged(ns[i], id) else ns[i]
  {
    Purge(ns[..k], id) + ns[k..]
  }

  function PurgedNode(e: Node, k: nat, id: string): (r: Node)
    requires e.Element? && k <= |e.children|
    ensures r.Element?
  {
    e.(children := PurgedTo(e.children, k, id))
  }

  lemma PurgeStart(doc: Node, elem: Place, id: string)
    requires ValidAt(doc, elem)
    ensures doc == Put(doc, elem, PurgedNode(At(doc, elem), 0, id))
    ensures LastPlace(At(doc, elem).children[..0], "Include") == None && LastPlace(At(doc, elem).children[..0], "Exclude") == None
  {
    PutSame(doc, elem);
    assert PurgedTo(At(doc, elem).children, 0, id) == At(doc, elem).children;
  }

  lemma PurgeDone(before: Node, elem: Place, e0: Node, id: string)
    requires ValidAt(before, elem) && e0.Element?
    ensures PurgedNode(e0, |e0.children|, id) == e0.(children := Purge(e0.children, id))
    ensures ValidAt(Put(before, elem, PurgedNode(e0, |e0.children|, id)), elem)
    ensures At(Put(before, elem, PurgedNode(e0, |e0.children|, id)), elem) == e0.(children := Purge(e0.children, id))
  {
    PutThere(before, elem, PurgedNode(e0, |e0.children|, id));
    assert PurgedTo(e0.children, |e0.children|, id) == Purge(e0.children, id);
  }

  lemma PurgeStep(before: Node, doc: Node, elem: Place, e0: Node, k: nat, id: string)
    requires ValidAt(before, elem) && e0.Element? && k < |e0.children|
    requires doc == Put(before, elem, PurgedNode(e0, k, id))
    ensures ValidAt(doc, elem) && k < |At(doc, elem).children| && At(doc, elem).children[k] == e0.children[k]
    ensures ValidAt(Put(before, elem, PurgedNode(e0, k + 1, id)), elem)
    ensures !Lists(e0.children[k]) ==> doc == Put(before, elem, PurgedNode(e0, k + 1, id))
    ensures Lists(e0.children[k]) ==> ValidAt(doc, elem + [k]) && At(doc, elem + [k]) == e0.children[k]
    ensures Lists(e0.children[k]) ==>
      var e := e0.children[k];
      Put(doc, elem + [k], e.(children := WithoutFirst(e.children, id))) == Put(before, elem, PurgedNode(e0, k + 1, id))
  {
    hide Put, At, ValidAt, WithoutFirst;
    var c := e0.children;
    var now, next := PurgedNode(e0, k, id), PurgedNode(e0, k + 1, id);
    PutThere(before, elem, now);
    PutThere(before, elem, next);
    if Lists(c[k]) {
      var x := c[k].(children := WithoutFirst(c[k].children, id));
      PutChild(doc, elem, k, x);
      assert PurgedTo(c, k, id)[k := x] == PurgedTo(c, k + 1, id);
      PutAgain(before, elem, now, next);
    } else {
      assert PurgedTo(c, k, id) == PurgedTo(c, k + 1, id);
    }
  }

  /** Purging leaves the lists where they are. */
  lemma {:induction false} PurgedPlace(ns: seq<Node>, id: string, tag: string)
    ensures LastPlace(Purge(ns, id), tag) == LastPlace(ns, tag)
  {
    if ns != [] {
      var k := |ns| - 1;
      assert Purge(ns, id)[..k] == Purge(ns[..k], id);
      PurgedPlace(ns[..k], id, tag);
    }
  }

  lemma ListStep(before: Node, doc: Node, elem: Place, k: nat, tag: string, id: string)
    requires ValidAt(before, elem)
    requires var c := At(before, elem).children;
      && k == LastTag(c, tag)
      && doc == Put(before, elem, if k < |c| then At(before, elem) else Appended(At(before, elem), [Element(tag, map[], [])]))
    ensures ValidAt(doc, elem + [k])
    ensures Put(doc, elem + [k], Appended(At(doc, elem + [k]), [FileNode(id)]))
         == Put(before, elem, At(before, elem).(children := List(At(before, elem).children, tag, id)))
  {
    hide Put, At, ValidAt, LastTag;
    var e0 := At(before, elem);
    var now := if k < |e0.children| then e0 else Appended(e0, [Element(tag, map[], [])]);
    PutThere(before, elem, now);
    var x := Appended(now.children[k], [FileNode(id)]);
    PutChild(doc, elem, k, x);
    PutAgain(before, elem, now, now.(children := now.children[k := x]));
    if k == |e0.children| {
      assert [] + [FileNode(id)] == [FileNode(id)];
      assert now.children[k := x] == e0.children + [x];
    }
  }

  lemma {:induction false} FirstTagIs(ns: seq<Node>, tag: string, k: nat)
    requires k <= |ns| && (k < |ns| ==> Is(ns[k], tag)) && forall j :: 0 <= j < k ==> !Is(ns[j], tag)
    ensures FirstTag(ns, tag) == k
  {
  }

  lemma MenuIndexIs(ns: seq<Node>, name: string, k: nat)
    requires k <= |ns| && (k < |ns| ==> IsMenu(ns[k], name)) && forall j :: 0 <= j < k ==> !IsMenu(ns[j], name)
    ensures MenuIndex(ns, name) == k
  {
  }

  lemma NamesStep(s: string, i: nat)
    requires i == IndexOf(s, '/')
    ensures var sub := if i < |s| then s[i + 1..] else "";
      && Names("") == [] && (i < |s| ==> Names(s) == if i == 0 then Names(sub) else [s[..i]] + Names(sub))
      && (i == |s| ==> s[..i] == s && Names(s) == if s == "" then [] else [s] + Names(sub))
  {
    assert [] + Names(if i < |s| then s[i + 1..] else "") == Names(if i < |s| then s[i + 1..] else "");
    assert [s] + [] == [s];
  }

  lemma NothingToFind(doc: Node, elem: Place)
    requires ValidAt(doc, elem)
    ensures Put(doc, elem, Made(At(doc, elem), [])) == doc && elem + MadePlace(At(doc, elem), []) == elem
    ensures Find(At(doc, elem), []) == Some(At(doc, elem))
  {
    PutSame(doc, elem);
  }

  /** The first menu of this name is the k-th child. */
  lemma FoundThere(doc: Node, elem: Place, k: nat, names: seq<string>)
    requires ValidAt(doc, elem) && k < |At(doc, elem).children| && IsMenu(At(doc, elem).children[k], MenuName(At(doc, elem).children[k]))
    requires MenuIndex(At(doc, elem).children, MenuName(At(doc, elem).children[k])) == k
    ensures var e := At(doc, elem);
      var name := MenuName(e.children[k]);
      && ValidAt(doc, elem + [k]) && At(doc, elem + [k]) == e.children[k]
      && Put(doc, elem, Made(e, [name] + names)) == Put(doc, elem + [k], Made(e.children[k], names))
      && elem + MadePlace(e, [name] + names) == elem + [k] + MadePlace(e.children[k], names)
      && Find(e, [name] + names) == Find(e.children[k], names)
  {
    hide At, Put, ValidAt, MenuName;
    var e := At(doc, elem);
    var name := MenuName(e.children[k]);
    assert ([name] + names)[1..] == names;
    PutChild(doc, elem, k, Made(e.children[k], names));
    assert elem + ([k] + MadePlace(e.children[k], names)) == elem + [k] + MadePlace(e.children[k], names);
  }

  lemma FoundHere(doc: Node, elem: Place, k: nat)
    requires ValidAt(doc, elem + [k])
    ensures Put(doc, elem + [k], Made(At(doc, elem + [k]), [])) == doc
    ensures elem + [k] + MadePlace(At(doc, elem + [k]), []) == elem + [k]
    ensures Find(At(doc, elem + [k]), []) == Some(At(doc, elem + [k]))
  {
    PutSame(doc, elem + [k]);
  }

  lemma FoundPlace(doc: Node, elem: Place, names: seq<string>)
    requires ValidAt(doc, elem)
    ensures ValidAt(Put(doc, elem, Made(At(doc, elem), names)), elem)
  {
    PutThere(doc, elem, Made(At(doc, elem), names));
  }

  lemma NotFound(e: Node, name: string, names: seq<string>)
    requires e.Element? && MenuIndex(e.children, name) == |e.children|
    ensures Find(e, [name] + names) == None
  {
  }

  /** The menu is made as the last child. */
  lemma MadeThere(doc: Node, elem: Place, name: string, names: seq<string>)
    requires ValidAt(doc, elem) && MenuIndex(At(doc, elem).children, name) == |At(doc, elem).children|
    ensures var e := At(doc, elem);
      var k, made := |e.children|, Put(doc, elem, e.(children := e.children + [NewMenu(name)]));
      && ValidAt(made, elem) && ValidAt(made, elem + [k]) && At(made, elem + [k]) == NewMenu(name)
      && Put(doc, elem, Made(e, [name] + names)) == Put(made, elem + [k], Made(NewMenu(name), names))
      && elem + MadePlace(e, [name] + names) == elem + [k] + MadePlace(NewMenu(name), names)
      && ValidAt(Put(made, elem + [k], Made(NewMenu(name), names)), elem)
  {
    hide At, Put, ValidAt;
    var e := At(doc, elem);
    var k, more := |e.children|, e.(children := e.children + [NewMenu(name)]);
    var made := Put(doc, elem, more);
    assert ([name] + names)[1..] == names;
    PutThere(doc, elem, more);
    PutChild(made, elem, k, Made(NewMenu(name), names));
    PutAgain(doc, elem, more, more.(children := more.children[k := Made(NewMenu(name), names)]));
    PutThere(doc, elem, more.(children := more.children[k := Made(NewMenu(name), names)]));
    assert more.children[k := Made(NewMenu(name), names)] == e.children + [Made(NewMenu(name), names)];
    assert elem + ([k] + MadePlace(NewMenu(name), names)) == elem + [k] + MadePlace(NewMenu(name), names);
  }

  lemma MadeHere(doc: Node, elem: Place, name: string)
    requires ValidAt(doc, elem) && MenuIndex(At(doc, elem).children, name) == |At(doc, elem).children|
    ensures var e := At(doc, elem);
      var k, made := |e.children|, Put(doc, elem, e.(children := e.children + [NewMenu(name)]));
      ValidAt(made, elem + [k]) && made == Put(doc, elem, Made(e, [name])) && elem + MadePlace(e, [name]) == elem + [k]
  {
    hide At, Put, ValidAt;
    var e := At(doc, elem);
    var k, made := |e.children|, Put(doc, elem, e.(children := e.children + [NewMenu(name)]));
    MadeThere(doc, elem, name, []);
    PutSame(made, elem + [k]);
    assert [name] + [] == [name];
  }
}
