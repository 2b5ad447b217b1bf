/**
 The menu document as a tree of elements, and what an edit does to it: menus are found by a path of names and
 created on demand, and entries are included in or excluded from a menu.
 */
module MenuModel {

  datatype Option<+T> = None | Some(value: T)

  datatype Node =
    | Text(text: string)
    | Element(tag: string, attributes: map<string, string>, children: seq<Node>)

  function Leaf(tag: string, text: string): Node { Element(tag, map[], [Text(text)]) }

  /** All text below a node. */
  function TextOf(n: Node): string
    decreases n, 0
  {
    match n
    case Text(text) => text
    case Element(_, _, children) => TextOfAll(children)
  }

  function TextOfAll(ns: seq<Node>): string
    decreases ns, 0
  {
    if ns == [] then "" else TextOf(ns[0]) + TextOfAll(ns[1..])
  }

  predicate Is(n: Node, tag: string) { n.Element? && n.tag == tag }

  // ---- finding menus ----

  /** The components of a path; empty ones do not count. */
  function Names(path: string): (r: seq<string>)
    decreases |path|
    ensures forall i :: 0 <= i < |r| ==> r[i] != ""
  {
    var i := IndexOf(path, '/');
    if i == |path| then if path == "" then [] else [path]
    else (if i == 0 then [] else [path[..i]]) + Names(path[i + 1..])
  }

  function IndexOf(s: string, c: char): (i: nat)
    ensures i <= |s| && (i < |s| ==> s[i] == c) && c !in s[..i]
  {
    if s == "" || s[0] == c then 0 else
      var i := 1 + IndexOf(s[1..], c);
      assert s[..i] == [s[0]] + s[1..][..i - 1];
      i
  }

  /** The position of the first element with this tag, or |ns|. */
  function FirstTag(ns: seq<Node>, tag: string): (k: nat)
    ensures k <= |ns| && (k < |ns| ==> Is(ns[k], tag)) && forall j :: 0 <= j < k ==> !Is(ns[j], tag)
  {
    if ns == [] || Is(ns[0], tag) then 0 else 1 + FirstTag(ns[1..], tag)
  }

  /** A menu's name is the text of its first Name element. */
  function MenuName(n: Node): string {
    if n.Text? then "" else
      var k := FirstTag(n.children, "Name");
      if k < |n.children| then TextOf(n.children[k]) else ""
  }

  predicate IsMenu(n: Node, name: string) { Is(n, "Menu") && MenuName(n) == name }

  /** The position of the first menu with this name, or |ns|. */
  function MenuIndex(ns: seq<Node>, name: string): (k: nat)
    ensures k <= |ns| && (k < |ns| ==> IsMenu(ns[k], name)) && forall j :: 0 <= j < k ==> !IsMenu(ns[j], name)
  {
    if ns == [] || IsMenu(ns[0], name) then 0 else 1 + MenuIndex(ns[1..], name)
  }

  function NewMenu(name: string): (n: Node) { Element("Menu", map[], [Leaf("Name", name)]) }

  function Find(n: Node, names: seq<string>): (m: Option<Node>)
    ensures m.Some? ==> m.value.Element?
    decreases |names|
  {
    if n.Text? then None
    else if names == [] then Some(n)
    else
      var k := MenuIndex(n.children, names[0]);
      if k < |n.children| then Find(n.children[k], names[1..]) else None
  }

  // ---- editing a menu ----

  datatype LayoutItem = Separator | Merge(kind: string) | Menuname(name: string) | File(name: string)

  datatype Op =
    | Add(id: string)
    | Remove(id: string)
    | AddDirectory(id: string)
    | Delete
    | Undelete
    | SetLayout(items: seq<LayoutItem>)
    | Move(from: string, to: string)

  function FileNode(id: string): Node { Leaf("Filename", id) }

  predicate IsFile(n: Node, id: string) { Is(n, "Filename") && TextOf(n) == id }

  /** Takes the first mention of id out of a list. */
  function WithoutFirst(ns: seq<Node>, id: string): seq<Node> {
    if ns == [] then [] else if IsFile(ns[0], id) then ns[1..] else [ns[0]] + WithoutFirst(ns[1..], id)
  }

  predicate Lists(n: Node) { Is(n, "Include") || Is(n, "Exclude") }

  function Purged(n: Node, id: string): (r: Node)
    ensures n.Element? ==> r.Element? && r.tag == n.tag
  {
    if Lists(n) then n.(children := WithoutFirst(n.children, id)) else n
  }

  function Purge(ns: seq<Node>, id: string): (r: seq<Node>)
    ensures |r| == |ns| && forall i :: 0 <= i < |ns| ==> r[i] == Purged(ns[i], id)
  {
    seq(|ns|, i requires 0 <= i < |ns| => Purged(ns[i], id))
  }

  /** The position of the last element with this tag, or |ns|. */
  function LastTag(ns: seq<Node>, tag: string): (k: nat)
    ensures k <= |ns| && (k < |ns| ==> Is(ns[k], tag))
    ensures k < |ns| ==> forall j :: k < j < |ns| ==> !Is(ns[j], tag)
    ensures k == |ns| ==> forall j :: 0 <= j < |ns| ==> !Is(ns[j], tag)
  {
    if ns == [] then 0 else
      var last := |ns| - 1;
      if Is(ns[last], tag) then last else
        var k := LastTag(ns[..last], tag);
        if k < last then k else |ns|
  }

  /** Lists id in the last element with this tag; there is one afterwards. */
  function List(ns: seq<Node>, tag: string, id: string): seq<Node> {
    var k := LastTag(ns, tag);
    if k < |ns| then ns[k := ns[k].(children := ns[k].children + [FileNode(id)])]
    else ns + [Element(tag, map[], [FileNode(id)])]
  }

  /** Takes every element with one of these tags out. */
  function Drop(ns: seq<Node>, tags: set<string>): (r: seq<Node>) {
    if ns == [] then [] else
      Drop(ns[..|ns| - 1], tags) + (if ns[|ns| - 1].Element? && ns[|ns| - 1].tag in tags then [] else [ns[|ns| - 1]])
  }

  function LayoutNode(item: LayoutItem): Node {
    match item
    case Separator => Element("Separator", map[], [])
    case Merge(kind) => Element("Merge", map["type" := kind], [])
    case Menuname(name) => Leaf("Menuname", name)
    case File(name) => Leaf("Filename", name)
  }

  function LayoutNodes(items: seq<LayoutItem>): (r: seq<Node>)
    ensures |r| == |items| && forall i :: 0 <= i < |items| ==> r[i] == LayoutNode(items[i])
  {
    seq(|items|, i requires 0 <= i < |items| => LayoutNode(items[i]))
  }

  /** What an edit makes of a menu's children. */
  function Edited(ns: seq<Node>, op: Op): seq<Node> {
    match op
    case Add(id) => List(Purge(ns, id), "Include", id)
    case Remove(id) => List(Purge(ns, id), "Exclude", id)
    case AddDirectory(id) => ns + [Leaf("Directory", id)]
    case Delete => Drop(ns, {"Deleted", "NotDeleted"}) + [Element("Deleted", map[], [])]
    case Undelete => Drop(ns, {"Deleted", "NotDeleted"}) + [Element("NotDeleted", map[], [])]
    case SetLayout(items) => Drop(ns, {"Layout"}) + [Element("Layout", map[], LayoutNodes(items))]
    case Move(from, to) => ns + [Element("Move", map[], [Leaf("Old", from), Leaf("New", to)])]
  }

  /** An edit of the menu with these names, which is created if it is not there. */
  function Edit(n: Node, names: seq<string>, op: Op): (r: Node)
    requires n.Element?
    ensures r.Element? && r.tag == n.tag
    decreases |names|
  {
    if names == [] then n.(children := Edited(n.children, op))
    else
      var k := MenuIndex(n.children, names[0]);
      if k < |n.children| then n.(children := n.children[k := Edit(n.children[k], names[1..], op)])
      else n.(children := n.children + [Edit(NewMenu(names[0]), names[1..], op)])
  }

  // ---- what the editor asks for ----

  function LayoutItemOf(s: string): LayoutItem {
    if s == ":S" then Separator
    else if s == ":M" then Merge("menus")
    else if s == ":F" then Merge("files")
    else if s == ":A" then Merge("all")
    else if s != "" && s[|s| - 1] == '/' then Menuname(s[..|s| - 1])
    else File(s)
  }

  function LayoutItems(layout: seq<string>): (r: seq<LayoutItem>)
    ensures |r| == |layout| && forall i :: 0 <= i < |layout| ==> r[i] == LayoutItemOf(layout[i])
  {
    seq(|layout|, i requires 0 <= i < |layout| => LayoutItemOf(layout[i]))
  }

  /** The components of a path, empty ones included. */
  function Split(path: string): (r: seq<string>)
    decreases |path|
    ensures r != []
  {
    var i := IndexOf(path, '/');
    if i == |path| then [path] else [path[..i]] + Split(path[i + 1..])
  }

  /** How many components two paths have in common at the beginning. */
  function Common(a: seq<string>, b: seq<string>): (n: nat)
    ensures n <= |a| && n <= |b| && a[..n] == b[..n] && (n < |a| && n < |b| ==> a[n] != b[n])
  {
    if a == [] || b == [] || a[0] != b[0] then 0 else
      var n := 1 + Common(a[1..], b[1..]);
      assert a[..n] == [a[0]] + a[1..][..n - 1] && b[..n] == [b[0]] + b[1..][..n - 1];
      n
  }

  function Rooted(parts: seq<string>): string {
    if parts == [] then "" else Rooted(parts[..|parts| - 1]) + "/" + parts[|parts| - 1]
  }

  function Joined(parts: seq<string>): string {
    if parts == [] then ""
    else if |parts| == 1 then parts[0]
    else Joined(parts[..|parts| - 1]) + "/" + parts[|parts| - 1]
  }

  /** The components from the n-th on, without the last one of all. */
  function Between(parts: seq<string>, n: nat): seq<string> {
    if n < |parts| then parts[n..|parts| - 1] else []
  }

  /** An instruction to move is left in the last menu that the old and the new path have in common. */
  function Moved(doc: Node, oldMenu: string, newMenu: string): (r: Node)
    requires doc.Element?
    ensures r.Element?
  {
    var a, b := Split(oldMenu), Split(newMenu);
    var n := Common(a, b);
    var undeleted := Edit(doc, Names(newMenu), Undelete);
    if Joined(Between(a, n)) == Joined(Between(b, n)) then undeleted
    else Edit(undeleted, Names(Rooted(a[..n])), Move(Joined(Between(a, n)), Joined(Between(b, n))))
  }

  // ---- what a menu lists ----

  /** How often a list mentions id. */
  function Count(ns: seq<Node>, id: string): nat {
    if ns == [] then 0 else (if IsFile(ns[0], id) then 1 else 0) + Count(ns[1..], id)
  }

  /** How often the elements with this tag mention id altogether. */
  function Mentions(ns: seq<Node>, tag: string, id: string): nat {
    if ns == [] then 0 else
      (if Is(ns[0], tag) then Count(ns[0].children, id) else 0) + Mentions(ns[1..], tag, id)
  }

  /** No list mentions an entry twice. */
  ghost predicate Tidy(ns: seq<Node>, tag: string, id: string) {
    forall i :: 0 <= i < |ns| && Is(ns[i], tag) ==> Count(ns[i].children, id) <= 1
  }

  function MentionsIn(n: Node, names: seq<string>, tag: string, id: string): nat {
    var m := Find(n, names);
    if m.Some? then Mentions(m.value.children, tag, id) else 0
  }

  predicate Includes(n: Node, path: string, id: string) { MentionsIn(n, Names(path), "Include", id) > 0 }

  predicate Excludes(n: Node, path: string, id: string) { MentionsIn(n, Names(path), "Exclude", id) > 0 }
}
