/**
 What a client tells the session manager about itself, and how a list of clients is written to and
 read from a numbered group of the configuration.
 */
module SessionStore {
  import opened Strings

  type ClientId = nat
  type Command = seq<string>

  /** A property as a client sets it: a name, a type tag and a list of values. */
  datatype SmProp = SmProp(name: string, kind: string, vals: seq<string>)

  const SM_RESTART_IF_RUNNING := 0
  const SM_RESTART_NEVER := 3

  datatype Properties = Properties(clientId: string, list: seq<SmProp>) {

    /** The first property of this name, if it has the expected type and at least one value. */
    function Values(name: string, kind: string): (vals: seq<string>) {
      var i := Find(list, name);
      if i < |list| && list[i].kind == kind then list[i].vals else []
    }

    function Program(): string {
      var vals := Values("Program", "ARRAY8");
      if |vals| < 1 then "" else vals[0]
    }

    function RestartCommand(): Command { Values("RestartCommand", "LISTofARRAY8") }

    function DiscardCommand(): Command { Values("DiscardCommand", "LISTofARRAY8") }

    function RestartStyleHint(): int {
      var vals := Values("RestartStyleHint", "CARD8");
      if |vals| < 1 || |vals[0]| < 1 then SM_RESTART_IF_RUNNING else (vals[0][0] as int) % 256
    }

    function UserId(): string {
      var vals := Values("UserID", "ARRAY8");
      if |vals| < 1 then "" else vals[0]
    }
  }

  /** The position of the first property with this name, or |list|. */
  function Find(list: seq<SmProp>, name: string): (i: nat)
    ensures i <= |list| && (i < |list| ==> list[i].name == name)
    ensures forall j :: 0 <= j < i ==> list[j].name != name
  {
    if list == [] || list[0].name == name then 0 else 1 + Find(list[1..], name)
  }

  datatype Entry = Entry(program: string, clientId: string, restartCommand: Command, discardCommand: Command,
                         restartStyle: int, userId: string, wasWm: bool)

  /** A configuration group: a count, and entries under whatever numbers are present. */
  datatype Group = Group(count: nat, entries: map<nat, Entry>) {

    /** Reading a number that is not there gives empty values. */
    function Read(n: nat): Entry {
      if n in entries then entries[n] else Entry("", "", [], [], 0, "", false)
    }

    function ReadAll(): (s: seq<Entry>)
      ensures |s| == count && forall i :: 0 <= i < count ==> s[i] == Read(i + 1)
    {
      seq(count, i requires 0 <= i => Read(i + 1))
    }
  }

  const EMPTY_GROUP := Group(0, map[])

  predicate Storable(p: Properties, excluded: set<string>) {
    && p.RestartStyleHint() != SM_RESTART_NEVER
    && !(p.Program() == "" && p.RestartCommand() == [])
    && Lower(p.Program()) !in excluded && Lower(FileName(p.Program())) !in excluded
  }

  function EntryFor(p: Properties, wm: string): Entry {
    Entry(p.Program(), p.clientId, p.RestartCommand(), p.DiscardCommand(), p.RestartStyleHint(), p.UserId(),
          p.Program() == wm)
  }

  /** The clients of ids that are stored, in order. */
  function StoredIds(ids: seq<ClientId>, props: map<ClientId, Properties>, excluded: set<string>): (r: seq<ClientId>)
    requires forall i :: 0 <= i < |ids| ==> ids[i] in props
    ensures forall c :: c in r <==> c in ids && Storable(props[c], excluded)
  {
    if ids == [] then [] else
      var c := ids[|ids| - 1];
      StoredIds(ids[..|ids| - 1], props, excluded) + (if Storable(props[c], excluded) then [c] else [])
  }

  lemma StoredSnoc(ids: seq<ClientId>, c: ClientId, props: map<ClientId, Properties>, excluded: set<string>)
    requires c in props && forall i :: 0 <= i < |ids| ==> ids[i] in props
    ensures StoredIds(ids + [c], props, excluded)
      == if Storable(props[c], excluded) then StoredIds(ids, props, excluded) + [c] else StoredIds(ids, props, excluded)
  {
    hide Storable;
    assert (ids + [c])[..|ids|] == ids;
  }

  /** They are stored in their order, each as often as it is listed. */
  lemma {:induction false} StoredInOrder(a: seq<ClientId>, b: seq<ClientId>, props: map<ClientId, Properties>, excluded: set<string>)
    requires forall i :: 0 <= i < |a| ==> a[i] in props
    requires forall i :: 0 <= i < |b| ==> b[i] in props
    ensures StoredIds(a + b, props, excluded) == StoredIds(a, props, excluded) + StoredIds(b, props, excluded)
  {
    hide Storable, StoredIds;
    if b == [] {
      assert a + b == a;
      NoneStored(props, excluded);
      assert StoredIds(a, props, excluded) + [] == StoredIds(a, props, excluded);
    } else {
      var c, rest := b[|b| - 1], b[..|b| - 1];
      assert a + b == (a + rest) + [c] && b == rest + [c];
      StoredInOrder(a, rest, props, excluded);
      StoredSnoc(a + rest, c, props, excluded);
      StoredSnoc(rest, c, props, excluded);
    }
  }

  lemma NoneStored(props: map<ClientId, Properties>, excluded: set<string>)
    ensures StoredIds([], props, excluded) == []
  {
  }

  function EntriesFor(ids: seq<ClientId>, props: map<ClientId, Properties>, wm: string): (r: seq<Entry>)
    requires forall i :: 0 <= i < |ids| ==> ids[i] in props
    ensures |r| == |ids| && forall i :: 0 <= i < |ids| ==> r[i] == EntryFor(props[ids[i]], wm)
  {
    seq(|ids|, i requires 0 <= i < |ids| => EntryFor(props[ids[i]], wm))
  }

  /** Numbered from 1, without gaps. */
  function Numbered(s: seq<Entry>): (g: Group)
    ensures g.count == |s| && g.ReadAll() == s
    ensures forall n :: n in g.entries <==> 1 <= n <= |s|
  {
    if s == [] then EMPTY_GROUP else
      var k := |s| - 1;
      var g := Numbered(s[..k]);
      var r := Group(k + 1, g.entries[k + 1 := s[k]]);
      assert forall i :: 0 <= i < k ==> r.ReadAll()[i] == g.ReadAll()[i] == s[i];
      assert r.ReadAll()[k] == s[k];
      r
  }

  function FirstWm(ids: seq<ClientId>, props: map<ClientId, Properties>, wm: string): (k: nat)
    requires forall i :: 0 <= i < |ids| ==> ids[i] in props
    ensures k <= |ids| && (k < |ids| ==> props[ids[k]].Program() == wm)
    ensures forall j :: 0 <= j < k ==> props[ids[j]].Program() != wm
  {
    if ids == [] || props[ids[0]].Program() == wm then 0 else 1 + FirstWm(ids[1..], props, wm)
  }

  /** The first window manager comes first, the others keep their order. */
  function WmFirst(ids: seq<ClientId>, props: map<ClientId, Properties>, wm: string): (r: seq<ClientId>)
    requires forall i :: 0 <= i < |ids| ==> ids[i] in props
    ensures multiset(r) == multiset(ids) && |r| == |ids|
    ensures forall c :: c in r <==> c in ids
  {
    var k := FirstWm(ids, props, wm);
    if k == |ids| then ids else
      assert ids == ids[..k] + [ids[k]] + ids[k + 1..];
      var r := [ids[k]] + ids[..k] + ids[k + 1..];
      assert multiset(r) == multiset(ids);
      assert forall c :: c in r <==> c in multiset(r);
      r
  }

  /** If there is a window manager the first one leads, and nobody else moves by more than one place. */
  lemma WmLeads(ids: seq<ClientId>, props: map<ClientId, Properties>, wm: string, k: nat)
    requires (forall i :: 0 <= i < |ids| ==> ids[i] in props) && k < |ids| && props[ids[k]].Program() == wm
    requires forall i :: 0 <= i < k ==> props[ids[i]].Program() != wm
    ensures var r := WmFirst(ids, props, wm);
      r[0] == ids[k] && (forall i :: 0 < i <= k ==> r[i] == ids[i - 1]) && r[k + 1..] == ids[k + 1..]
  {
    hide Properties.Program;
    assert FirstWm(ids, props, wm) == k;
  }
}
