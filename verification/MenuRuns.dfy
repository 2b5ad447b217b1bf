/**
 Queues of edits: the last edit of an entry in a menu wins, and what was removed last is hidden.
 */
module MenuRuns {
  import opened MenuModel
  import opened MenuMembership

  datatype Request = Request(path: string, op: Op)

  /** No menu mentions an entry more than once; a new document is of this kind. */
  ghost predicate Sparse(n: Node) {
    n.Element? && forall names, tag, id :: Listing(tag) ==> MentionsIn(n, names, tag, id) <= 1
  }

  const NEW_DOCUMENT := Element("Menu", map[], [])

  lemma NewIsSparse()
    ensures Sparse(NEW_DOCUMENT)
  {
    forall names: seq<string>, tag, id | Listing(tag) ensures MentionsIn(NEW_DOCUMENT, names, tag, id) <= 1 {
      if names != [] { FindFirst(NEW_DOCUMENT, names); }
    }
  }

  lemma {:induction false} FewMentionsTidy(ns: seq<Node>, tag: string, id: string)
    requires Mentions(ns, tag, id) <= 1
    ensures Tidy(ns, tag, id)
  {
    if ns != [] {
      FewMentionsTidy(ns[1..], tag, id);
      TidyCons(ns, tag, id);
    }
  }

  lemma SparseTidy(n: Node, names: seq<string>, id: string)
    requires Sparse(n)
    ensures TidyAt(n, names, id)
  {
    assert MentionsIn(n, names, "Include", id) <= 1 && MentionsIn(n, names, "Exclude", id) <= 1;
    if Find(n, names).None? && names != [] {
      MentionsOne(Leaf("Name", names[|names| - 1]), "Include", id);
      MentionsOne(Leaf("Name", names[|names| - 1]), "Exclude", id);
    }
    FewMentionsTidy(ChildrenAt(n, names), "Include", id);
    FewMentionsTidy(ChildrenAt(n, names), "Exclude", id);
  }

  lemma EditSparse(n: Node, names: seq<string>, op: Op)
    requires Sparse(n)
    ensures Sparse(Edit(n, names, op))
  {
    hide Edit, MentionsIn, TidyAt;
    var r := Edit(n, names, op);
    forall others, tag, id | Listing(tag) ensures MentionsIn(r, others, tag, id) <= 1 {
      MentionsAfter(n, names, op, others, tag, id);
      if op.Add? || op.Remove? {
        SparseTidy(n, names, op.id);
        EntryDecided(n, names, op);
      }
    }
  }

  // ---- queues ----

  function EditAll(n: Node, rs: seq<Request>): (r: Node)
    requires n.Element?
    ensures r.Element?
  {
    if rs == [] then n else
      Edit(EditAll(n, rs[..|rs| - 1]), Names(rs[|rs| - 1].path), rs[|rs| - 1].op)
  }

  predicate About(op: Op, id: string) { (op.Add? || op.Remove?) && op.id == id }

  /** The last edit of this entry in this menu. */
  function LastIn(rs: seq<Request>, names: seq<string>, id: string): (r: Option<Op>)
    ensures r.Some? ==> About(r.value, id)
  {
    if rs == [] then None else
      var q := rs[|rs| - 1];
      if Names(q.path) == names && About(q.op, id) then Some(q.op) else LastIn(rs[..|rs| - 1], names, id)
  }

  /** A menu includes an entry just if it was added there last, and excludes it just if it was removed there last,
      never both and never twice; without an edit it is as it was. */
  lemma {:induction false} LastWriterWins(n: Node, rs: seq<Request>, names: seq<string>, id: string)
    requires n.Element? && Sparse(n)
    ensures Sparse(EditAll(n, rs))
    ensures var r, last := EditAll(n, rs), LastIn(rs, names, id);
      && MentionsIn(r, names, "Include", id)
         == (if last.None? then MentionsIn(n, names, "Include", id) else if last.value.Add? then 1 else 0)
      && MentionsIn(r, names, "Exclude", id)
         == (if last.None? then MentionsIn(n, names, "Exclude", id) else if last.value.Add? then 0 else 1)
  {
    hide Sparse, Edit, MentionsIn, TidyAt;
    if rs != [] {
      var before, q := EditAll(n, rs[..|rs| - 1]), rs[|rs| - 1];
      LastWriterWins(n, rs[..|rs| - 1], names, id);
      EditSparse(before, Names(q.path), q.op);
      if Names(q.path) == names && About(q.op, id) {
        SparseTidy(before, names, id);
        EntryDecided(before, names, q.op);
      } else {
        MentionsAfter(before, Names(q.path), q.op, names, "Include", id);
        MentionsAfter(before, Names(q.path), q.op, names, "Exclude", id);
      }
    }
  }

  /** So a new document includes exactly what was added last, and excludes exactly what was removed last. */
  lemma NewDocumentListsLast(rs: seq<Request>, path: string, id: string)
    ensures var r, last := EditAll(NEW_DOCUMENT, rs), LastIn(rs, Names(path), id);
      && (Includes(r, path, id) <==> last.Some? && last.value.Add?)
      && (Excludes(r, path, id) <==> last.Some? && last.value.Remove?)
      && MentionsIn(r, Names(path), "Include", id) <= 1 && MentionsIn(r, Names(path), "Exclude", id) <= 1
  {
    NewIsSparse();
    LastWriterWins(NEW_DOCUMENT, rs, Names(path), id);
    if Names(path) != [] { FindFirst(NEW_DOCUMENT, Names(path)); }
  }

  // ---- the editor's actions ----

  datatype Action =
    | AddEntry(menu: string, id: string)
    | RemoveEntry(menu: string, id: string)
    | AddMenu(menu: string, id: string)
    | RemoveMenu(menu: string)
    | MoveMenu(oldMenu: string, newMenu: string)

  /** The edits that an action stands for. */
  function Requests(a: Action): seq<Request> {
    match a
    case AddEntry(menu, id) => [Request(menu, Add(id))]
    case RemoveEntry(menu, id) => [Request(menu, Remove(id))]
    case AddMenu(menu, id) => [Request(menu, AddDirectory(id))]
    case RemoveMenu(menu) => [Request(menu, Delete)]
    case MoveMenu(oldMenu, newMenu) =>
      var a, b := Split(oldMenu), Split(newMenu);
      var n := Common(a, b);
      [Request(newMenu, Undelete)] +
      (if Joined(Between(a, n)) == Joined(Between(b, n)) then []
       else [Request(Rooted(a[..n]), Move(Joined(Between(a, n)), Joined(Between(b, n))))])
  }

  function AllRequests(actions: seq<Action>): seq<Request> {
    if actions == [] then [] else AllRequests(actions[..|actions| - 1]) + Requests(actions[|actions| - 1])
  }

  lemma {:induction false} EditAllConcat(n: Node, a: seq<Request>, b: seq<Request>)
    requires n.Element?
    ensures EditAll(n, a + b) == EditAll(EditAll(n, a), b)
  {
    if b == [] {
      assert a + b == a;
    } else {
      EditAllConcat(n, a, b[..|b| - 1]);
      assert (a + b)[..|a + b| - 1] == a + b[..|b| - 1];
    }
  }

  lemma OneEdit(n: Node, q: Request)
    requires n.Element?
    ensures EditAll(n, [q]) == Edit(n, Names(q.path), q.op)
  {
    hide Edit, Names;
    assert [q][..0] == [];
  }

  lemma MovedIsTwoEdits(n: Node, oldMenu: string, newMenu: string)
    requires n.Element?
    ensures Moved(n, oldMenu, newMenu) == EditAll(n, Requests(MoveMenu(oldMenu, newMenu)))
  {
    hide Edit, Names, Split, Common, Joined, Between, Rooted, EditAll;
    var rs := Requests(MoveMenu(oldMenu, newMenu));
    OneEdit(n, rs[0]);
    if |rs| == 2 {
      assert rs == [rs[0]] + [rs[1]];
      EditAllConcat(n, [rs[0]], [rs[1]]);
      OneEdit(EditAll(n, [rs[0]]), rs[1]);
    } else {
      assert rs == [rs[0]];
    }
  }

  // ---- hiding what was removed ----

  function RemoveAll(ids: seq<string>, id: string): (r: seq<string>)
    ensures forall x :: x in r <==> x in ids && x != id
  {
    if ids == [] then [] else
      RemoveAll(ids[..|ids| - 1], id) + (if ids[|ids| - 1] == id then [] else [ids[|ids| - 1]])
  }

  function NoteRemoved(removed: seq<string>, op: Op): seq<string> {
    match op
    case Add(id) => RemoveAll(removed, id)
    case Remove(id) => removed + [id]
    case _ => removed
  }

  function RemovedAfter(removed: seq<string>, rs: seq<Request>): seq<string> {
    if rs == [] then removed else NoteRemoved(RemovedAfter(removed, rs[..|rs| - 1]), rs[|rs| - 1].op)
  }

  /** The last edit of this entry in any menu. */
  function LastOf(rs: seq<Request>, id: string): (r: Option<Op>)
    ensures r.Some? ==> About(r.value, id)
  {
    if rs == [] then None else
      if About(rs[|rs| - 1].op, id) then Some(rs[|rs| - 1].op) else LastOf(rs[..|rs| - 1], id)
  }

  lemma {:induction false} RemovedAreLastRemoved(removed: seq<string>, rs: seq<Request>, id: string)
    ensures id in RemovedAfter(removed, rs) <==>
      match LastOf(rs, id) case None => id in removed case Some(op) => op.Remove?
  {
    if rs != [] { RemovedAreLastRemoved(removed, rs[..|rs| - 1], id); }
  }

  const HIDDEN := "/.hidden/"

  function Hides(ids: seq<string>): (r: seq<Request>)
    ensures |r| == |ids| && forall i :: 0 <= i < |ids| ==> r[i] == Request(HIDDEN, Add(ids[i]))
  {
    seq(|ids|, i requires 0 <= i < |ids| => Request(HIDDEN, Add(ids[i])))
  }

  /** The queue is worked off, and then the entries that were removed last are added to the hidden menu. */
  function Performed(n: Node, removed: seq<string>, rs: seq<Request>): (r: Node)
    requires n.Element?
    ensures r.Element?
  {
    EditAll(EditAll(n, rs), Hides(RemovedAfter(removed, rs)))
  }

  lemma HiddenNames()
    ensures Names(HIDDEN) == [".hidden"]
  {
    var s := HIDDEN;
    assert s[1..] == ".hidden/";
    SlashAt(s, 0);
    SlashAt(".hidden/", 7);
    assert ".hidden/"[..7] == ".hidden" && ".hidden/"[8..] == "";
    assert Names("") == [];
    assert Names(".hidden/") == [".hidden"] + Names("");
  }

  lemma {:induction false} SlashAt(s: string, k: nat)
    requires k < |s| && s[k] == '/' && forall j :: 0 <= j < k ==> s[j] != '/'
    ensures IndexOf(s, '/') == k
  {
    if k > 0 {
      assert s[0] != '/';
      SlashAt(s[1..], k - 1);
    }
  }

  lemma {:induction false} LastHide(ids: seq<string>, names: seq<string>, id: string)
    ensures LastIn(Hides(ids), names, id) == if names == Names(HIDDEN) && id in ids then Some(Add(id)) else None
  {
    hide Names;
    if ids != [] {
      var k := |ids| - 1;
      assert Hides(ids)[..k] == Hides(ids[..k]);
      LastHide(ids[..k], names, id);
      assert ids == ids[..k] + [ids[k]];
    }
  }

  /** After a queue has been performed, an entry whose last queued edit was a removal is in the hidden menu, once and
      not excluded there, and so is one that had been noted as removed before and that the queue does not touch;
      everything else is decided by the queue alone. */
  lemma PerformedHides(n: Node, noted: seq<string>, rs: seq<Request>, names: seq<string>, id: string)
    requires n.Element? && Sparse(n)
    ensures var r, q := Performed(n, noted, rs), EditAll(n, rs);
      var removed := if LastOf(rs, id).Some? then LastOf(rs, id).value.Remove? else id in noted;
      && Sparse(r)
      && (names == [".hidden"] && removed ==>
            MentionsIn(r, names, "Include", id) == 1 && MentionsIn(r, names, "Exclude", id) == 0)
      && (names != [".hidden"] || !removed ==>
            MentionsIn(r, names, "Include", id) == MentionsIn(q, names, "Include", id)
            && MentionsIn(r, names, "Exclude", id) == MentionsIn(q, names, "Exclude", id))
  {
    hide Sparse, MentionsIn, EditAll, Names, LastIn, LastOf, RemovedAfter, Hides;
    var removed := RemovedAfter(noted, rs);
    HiddenNames();
    RemovedAreLastRemoved(noted, rs, id);
    LastHide(removed, names, id);
    LastWriterWins(n, rs, names, id);
    LastWriterWins(EditAll(n, rs), Hides(removed), names, id);
  }

  lemma {:induction false} RemovedConcat(removed: seq<string>, a: seq<Request>, b: seq<Request>)
    ensures RemovedAfter(removed, a + b) == RemovedAfter(RemovedAfter(removed, a), b)
  {
    if b == [] {
      assert a + b == a;
    } else {
      RemovedConcat(removed, a, b[..|b| - 1]);
      assert (a + b)[..|a + b| - 1] == a + b[..|b| - 1];
    }
  }

  lemma OneRemoved(removed: seq<string>, q: Request)
    ensures RemovedAfter(removed, [q]) == NoteRemoved(removed, q.op)
  {
    assert [q][..0] == [];
  }
}
