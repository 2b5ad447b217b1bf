/**
 What is stored about a client, said of the properties the client has set and not of how they are looked up.
 */
module SessionEntries {
  import opened Picking
  import opened SessionStore
  import opened Strings

  // ---- properties ----

  ghost predicate FirstNamed(list: seq<SmProp>, name: string, k: nat) {
    k < |list| && list[k].name == name && forall j :: 0 <= j < k ==> list[j].name != name
  }

  /** These are the values of the first property of this name if it is of this kind; otherwise there are none. */
  ghost predicate Says(list: seq<SmProp>, name: string, kind: string, vals: seq<string>) {
    && (forall k: nat :: FirstNamed(list, name, k) && list[k].kind == kind ==> vals == list[k].vals)
    && ((forall k: nat :: FirstNamed(list, name, k) ==> list[k].kind != kind) ==> vals == [])
  }

  lemma ValuesSay(p: Properties, name: string, kind: string, vals: seq<string>)
    ensures Says(p.list, name, kind, vals) <==> vals == p.Values(name, kind)
  {
    var i := Find(p.list, name);
    assert i < |p.list| ==> FirstNamed(p.list, name, i);
    forall k: nat | FirstNamed(p.list, name, k) ensures k == i {
      assert i < |p.list| ==> p.list[i].name == name;
    }
  }

  /** The first value of a text property. */
  ghost predicate Text(list: seq<SmProp>, name: string, text: string) {
    exists vals :: Says(list, name, "ARRAY8", vals) && text == if vals == [] then "" else vals[0]
  }

  /** The number a client gives for how it wants to be restarted, if it gives any. */
  ghost predicate Hint(list: seq<SmProp>, style: int) {
    exists vals :: Says(list, "RestartStyleHint", "CARD8", vals) &&
      style == if vals == [] || vals[0] == "" then 0 else (vals[0][0] as int) % 256
  }

  lemma TextIs(p: Properties, name: string, text: string)
    ensures Text(p.list, name, text) <==> text == (var vals := p.Values(name, "ARRAY8"); if vals == [] then "" else vals[0])
  {
    hide Says, Properties.Values;
    forall vals ensures Says(p.list, name, "ARRAY8", vals) <==> vals == p.Values(name, "ARRAY8") {
      ValuesSay(p, name, "ARRAY8", vals);
    }
  }

  lemma HintIs(p: Properties, style: int)
    ensures Hint(p.list, style) <==> style == p.RestartStyleHint()
  {
    hide Says, Properties.Values;
    forall vals ensures Says(p.list, "RestartStyleHint", "CARD8", vals) <==> vals == p.Values("RestartStyleHint", "CARD8") {
      ValuesSay(p, "RestartStyleHint", "CARD8", vals);
    }
  }

  /** The getters find what the client has set, and nothing else would be right. */
  lemma OnlyTheGetters(p: Properties)
    ensures forall text :: Text(p.list, "Program", text) <==> text == p.Program()
    ensures forall text :: Text(p.list, "UserID", text) <==> text == p.UserId()
    ensures forall style :: Hint(p.list, style) <==> style == p.RestartStyleHint()
    ensures forall vals :: Says(p.list, "RestartCommand", "LISTofARRAY8", vals) <==> vals == p.RestartCommand()
    ensures forall vals :: Says(p.list, "DiscardCommand", "LISTofARRAY8", vals) <==> vals == p.DiscardCommand()
  {
    hide Says, Text, Properties.Values, Hint;
    forall text ensures Text(p.list, "Program", text) <==> text == p.Program() { TextIs(p, "Program", text); }
    forall text ensures Text(p.list, "UserID", text) <==> text == p.UserId() { TextIs(p, "UserID", text); }
    forall style ensures Hint(p.list, style) <==> style == p.RestartStyleHint() { HintIs(p, style); }
    forall vals ensures Says(p.list, "RestartCommand", "LISTofARRAY8", vals) <==> vals == p.RestartCommand() {
      ValuesSay(p, "RestartCommand", "LISTofARRAY8", vals);
    }
    forall vals ensures Says(p.list, "DiscardCommand", "LISTofARRAY8", vals) <==> vals == p.DiscardCommand() {
      ValuesSay(p, "DiscardCommand", "LISTofARRAY8", vals);
    }
  }

  // ---- whom the session leaves out ----

  /** The name behind the last slash of a path. */
  ghost predicate LastPart(path: string, name: string) {
    && '/' !in name && |name| <= |path| && path[|path| - |name|..] == name
    && (|name| < |path| ==> path[|path| - |name| - 1] == '/')
  }

  /** A client that never wants to be restarted, one that cannot be, or one whose program is excluded by its path or by
      its name. */
  ghost predicate LeftOut(list: seq<SmProp>, excluded: set<string>) {
    || Hint(list, 3)
    || (Text(list, "Program", "") && Says(list, "RestartCommand", "LISTofARRAY8", []))
    || (exists program, name :: Text(list, "Program", program) && LastPart(program, name) &&
          (Lower(program) in excluded || Lower(name) in excluded))
  }

  lemma LastPartIs(path: string, name: string)
    ensures LastPart(path, name) <==> name == FileName(path)
  {
    hide FileName;
    FileNameIs(path);
    var file := FileName(path);
    if LastPart(path, name) {
      NotLonger(path, name, file);
      NotLonger(path, file, name);
    }
  }

  lemma NotLonger(path: string, a: string, b: string)
    requires LastPart(path, a) && LastPart(path, b)
    ensures |b| <= |a|
  {
    forall k | |path| - |b| <= k < |path| ensures path[k] != '/' {
      assert b[k - (|path| - |b|)] == path[k];
    }
  }

  lemma StorableIs(p: Properties, excluded: set<string>)
    ensures Storable(p, excluded) <==> !LeftOut(p.list, excluded)
  {
    hide Text, Hint, Says, LastPart, FileName, Lower, Properties.Program, Properties.RestartCommand, Properties.RestartStyleHint;
    OnlyTheGetters(p);
    forall name ensures LastPart(p.Program(), name) <==> name == FileName(p.Program()) { LastPartIs(p.Program(), name); }
    assert LastPart(p.Program(), FileName(p.Program()));
  }

  // ---- what is written about a client ----

  ghost predicate EntryOf(e: Entry, clientId: string, list: seq<SmProp>, wm: string) {
    && e.clientId == clientId
    && Text(list, "Program", e.program) && Text(list, "UserID", e.userId) && Hint(list, e.restartStyle)
    && Says(list, "RestartCommand", "LISTofARRAY8", e.restartCommand)
    && Says(list, "DiscardCommand", "LISTofARRAY8", e.discardCommand)
    && (e.wasWm <==> e.program == wm)
  }

  lemma EntryForIs(e: Entry, p: Properties, wm: string)
    ensures EntryOf(e, p.clientId, p.list, wm) <==> e == EntryFor(p, wm)
  {
    hide Text, Hint, Says, Properties.Program, Properties.RestartCommand, Properties.DiscardCommand,
      Properties.RestartStyleHint, Properties.UserId;
    OnlyTheGetters(p);
  }

  /** The group has an entry for each of these clients, numbered from one, and nothing else. */
  ghost predicate Writes(g: Group, ids: seq<ClientId>, props: map<ClientId, Properties>, wm: string) {
    && g.count == |ids| && (forall n :: n in g.entries <==> 1 <= n <= |ids|)
    && forall i :: 0 <= i < |ids| ==>
         ids[i] in props && EntryOf(g.entries[i + 1], props[ids[i]].clientId, props[ids[i]].list, wm)
  }

  lemma NumberedWrites(ids: seq<ClientId>, props: map<ClientId, Properties>, wm: string)
    requires forall i :: 0 <= i < |ids| ==> ids[i] in props
    ensures Writes(Numbered(EntriesFor(ids, props, wm)), ids, props, wm)
  {
    hide EntryOf, EntryFor, Numbered;
    var es := EntriesFor(ids, props, wm);
    var g := Numbered(es);
    forall i | 0 <= i < |ids| ensures EntryOf(g.entries[i + 1], props[ids[i]].clientId, props[ids[i]].list, wm) {
      assert g.ReadAll()[i] == es[i];
      EntryForIs(es[i], props[ids[i]], wm);
    }
  }

  // ---- who is stored ----

  ghost function NotLeftOut(props: map<ClientId, Properties>, excluded: set<string>): ClientId -> bool {
    c => c in props && !LeftOut(props[c].list, excluded)
  }

  /** The stored clients are those not left out, in order. */
  lemma {:induction false} StoredPicks(ids: seq<ClientId>, props: map<ClientId, Properties>, excluded: set<string>)
    requires forall i :: 0 <= i < |ids| ==> ids[i] in props
    ensures Picks(StoredIds(ids, props, excluded), ids, NotLeftOut(props, excluded))
  {
    hide LeftOut, Storable, PicksAt, Picks, StoredIds;
    var p := NotLeftOut(props, excluded);
    if ids == [] {
      PicksNone(p);
      NoneStored(props, excluded);
    } else {
      var rest, c := ids[..|ids| - 1], ids[|ids| - 1];
      StoredPicks(rest, props, excluded);
      PicksOn(StoredIds(rest, props, excluded), rest, p, c);
      StorableIs(props[c], excluded);
      assert p(c) <==> Storable(props[c], excluded);
      StoredSnoc(rest, c, props, excluded);
      assert rest + [c] == ids;
    }
  }
}
