/**
 The cache of options that are needed before the desktop starts. A writer looks the options up and notes, per option,
 the files the value came from; a checker that knows nothing of configuration files decides from these notes and
 from time stamps whether the writer must run again.
 */
module StartupConfig {
  import opened Strings

  datatype Option<+T> = None | Some(value: T)

  datatype FileState = FileState(mtime: int, content: string)

  /** The files that can be read, by path. */
  type Disk = map<string, FileState>

  const CHECKER_LINE := 1022
  const WRITER_LINE := 1023
  const CONFIG_DIR := "share/config/"

  // ---- reading lines ----

  /** How much of a text one read takes: to the end of the line, but no more than max characters. */
  function LineLength(s: string, max: nat): (n: nat)
    requires max > 0
    ensures n <= |s| && n <= max && (s != "" ==> n > 0)
    ensures forall i :: 0 <= i < n - 1 ==> s[i] != '\n'
    ensures n == |s| || n == max || s[n - 1] == '\n'
  {
    if s == "" then 0
    else if max == 1 || s[0] == '\n' then 1
    else
      var n := LineLength(s[1..], max - 1);
      assert forall i :: 1 <= i < n ==> s[i] == s[1..][i - 1];
      assert n > 0 ==> s[n] == s[1..][n - 1];
      1 + n
  }

  function Lines(s: string, max: nat): (r: seq<string>)
    requires max > 0
    ensures forall i :: 0 <= i < |r| ==> 0 < |r[i]| <= max
    decreases |s|
  {
    if s == "" then [] else
      var n := LineLength(s, max);
      [s[..n]] + Lines(s[n..], max)
  }

  /** Put together the lines are the text; each but the last is full or ends with a newline, and none has one before its
      end. */
  ghost predicate Splits(lines: seq<string>, s: string, max: nat) {
    && Joined(lines) == s
    && (forall i :: 0 <= i < |lines| ==> 0 < |lines[i]| <= max && '\n' !in lines[i][..|lines[i]| - 1])
    && (forall i :: 0 <= i < |lines| - 1 ==> |lines[i]| == max || lines[i][|lines[i]| - 1] == '\n')
  }

  lemma {:induction false} LinesSplit(s: string, max: nat)
    requires max > 0
    ensures Splits(Lines(s, max), s, max)
    decreases |s|
  {
    hide Splits, LineLength;
    if s == "" {
      NothingSplits(max);
    } else {
      var n := LineLength(s, max);
      LinesSplit(s[n..], max);
      LineInFront(s[..n], Lines(s[n..], max), s[n..], max);
      assert s == s[..n] + s[n..];
    }
  }

  lemma NothingSplits(max: nat)
    ensures Splits([], "", max)
  {
  }

  lemma LineInFront(line: string, lines: seq<string>, s: string, max: nat)
    requires Splits(lines, s, max) && 0 < |line| <= max && forall i :: 0 <= i < |line| - 1 ==> line[i] != '\n'
    requires s == "" || |line| == max || line[|line| - 1] == '\n'
    ensures Splits([line] + lines, line + s, max)
  {
    var all := [line] + lines;
    assert all[1..] == lines;
    assert '\n' !in line[..|line| - 1];
    if lines != [] { assert s != "" by { assert Joined(lines) == lines[0] + Joined(lines[1..]); } }
    forall i | 0 < i < |all| ensures all[i] == lines[i - 1] {}
  }

  function Joined<T>(parts: seq<seq<T>>): seq<T> {
    if parts == [] then [] else parts[0] + Joined(parts[1..])
  }

  /** A line without its newline. */
  function Chop(line: string): string {
    if line != "" && line[|line| - 1] == '\n' then line[..|line| - 1] else line
  }

  function ChopAll(lines: seq<string>): (r: seq<string>)
    ensures |r| == |lines| && forall i :: 0 <= i < |r| ==> r[i] == Chop(lines[i])
  {
    seq(|lines|, i requires 0 <= i < |lines| => Chop(lines[i]))
  }

  /** A file opened for reading. */
  class TextFile {
    var rest: string

    constructor (content: string)
      ensures rest == content
    {
      rest := content;
    }

    /** Nothing is left when the line is empty. */
    method ReadLine(max: nat) returns (line: string)
      requires max > 0
      modifies this
      ensures line == "" <==> old(rest) == ""
      ensures old(rest) != "" ==> Lines(old(rest), max) == [line] + Lines(rest, max)
      ensures |rest| == |old(rest)| - |line|
    {
      var n := 0;
      while n < |rest| && n < max && (n == 0 || rest[n - 1] != '\n')
        invariant 0 <= n <= |rest| && n <= max && forall i :: 0 <= i < n - 1 ==> rest[i] != '\n'
      {
        n := n + 1;
      }
      LengthIs(rest, max, n);
      line := rest[..n];
      rest := rest[n..];
    }
  }

  lemma {:induction false} LengthIs(s: string, max: nat, n: nat)
    requires max > 0 && n <= |s| && n <= max && (s != "" ==> n > 0)
    requires forall i :: 0 <= i < n - 1 ==> s[i] != '\n'
    requires n == |s| || n == max || (n > 0 && s[n - 1] == '\n')
    ensures LineLength(s, max) == n
  {
  }

  // ---- the checker ----

  datatype Verdict = Fresh | Update | Failed(code: int)

  /** What follows a record in the notes, if everything the record says still holds. */
  function AfterRecord(notes: seq<string>, time: int, disk: Disk): (r: Option<seq<string>>)
    ensures r.Some? ==> |r.value| < |notes|
  {
    if notes == [] || notes[0] == "" then None
    else if notes[0][0] == '*' then Some(notes[1..])
    else if Holds(notes[0], time, disk) then AfterRecord(notes[1..], time, disk)
    else None
  }

  /** A listed file is there and no newer than the notes, or still not there if it is marked so. */
  predicate Holds(line: string, time: int, disk: Disk)
    requires line != ""
  {
    if line[0] == '!' then line[1..] !in disk else line in disk && disk[line].mtime <= time
  }

  predicate UpToDate(keys: seq<string>, notes: seq<string>, time: int, disk: Disk)
    decreases |keys|
  {
    keys == [] ||
    (notes != [] && keys[0] == notes[0] &&
     var rest := AfterRecord(notes[1..], time, disk);
     rest.Some? && UpToDate(keys[1..], rest.value, time, disk))
  }

  /** The verdict, given what can be read of the three files. */
  function Judge(keys: Option<string>, script: bool, notes: Option<(string, int)>, disk: Disk): Verdict {
    if !script || notes.None? then Update
    else if keys.None? then Failed(2)
    else if UpToDate(ChopAll(Lines(keys.value, CHECKER_LINE)), ChopAll(Lines(notes.value.0, CHECKER_LINE)),
                     notes.value.1, disk) then Fresh
    else Update
  }

  /** Reads keys and notes side by side, and stops at the first thing that does not agree. */
  method Check(keys: Option<string>, script: bool, notes: Option<(string, int)>, disk: Disk)
    returns (verdict: Verdict)
    ensures verdict == Judge(keys, script, notes, disk)
    ensures !script || notes.None? ==> verdict == Update
    ensures script && notes.Some? && keys.None? ==> verdict == Failed(2)
  {
    if !script || notes.None? { return Update; }
    if keys.None? { return Failed(2); }
    var time := notes.value.1;
    var config := new TextFile(notes.value.0);
    var keysFile := new TextFile(keys.value);
    ghost var expected := UpToDate(Rest(keysFile), Rest(config), time, disk);
    while true
      invariant expected == UpToDate(Rest(keysFile), Rest(config), time, disk)
      decreases |keysFile.rest|
    {
      hide UpToDate;
      ghost var keysLeft, notesLeft := Rest(keysFile), Rest(config);
      UpToDateStep(keysLeft, notesLeft, time, disk);
      var keyLine := Gets(keysFile);
      if keyLine.None? { return Fresh; }
      var line := Gets(config);
      if line.None? || keyLine.value != line.value { return Update; }
      var agrees := SkipRecord(config, time, disk);
      if !agrees { return Update; }
    }
  }

  lemma UpToDateStep(keys: seq<string>, notes: seq<string>, time: int, disk: Disk)
    ensures keys == [] ==> UpToDate(keys, notes, time, disk)
    ensures keys != [] && (notes == [] || keys[0] != notes[0]) ==> !UpToDate(keys, notes, time, disk)
    ensures keys != [] && notes != [] && keys[0] == notes[0] ==>
      var rest := AfterRecord(notes[1..], time, disk);
      UpToDate(keys, notes, time, disk) == (rest.Some? && UpToDate(keys[1..], rest.value, time, disk))
  {
  }

  /** The lines the checker has yet to read. */
  ghost function Rest(file: TextFile): seq<string>
    reads file
  {
    ChopAll(Lines(file.rest, CHECKER_LINE))
  }

  method Gets(file: TextFile) returns (line: Option<string>)
    modifies file
    ensures line.None? <==> old(Rest(file)) == []
    ensures line.Some? ==> line.value == old(Rest(file))[0] && Rest(file) == old(Rest(file))[1..]
    ensures line.Some? ==> |file.rest| < |old(file.rest)|
  {
    var raw := file.ReadLine(CHECKER_LINE);
    if raw == "" { return None; }
    line := Some(Chop(raw));
    ChopSplits([raw], Lines(file.rest, CHECKER_LINE));
  }

  lemma ChopSplits(a: seq<string>, b: seq<string>)
    ensures ChopAll(a + b) == ChopAll(a) + ChopAll(b)
  {
  }

  method SkipRecord(config: TextFile, time: int, disk: Disk) returns (agrees: bool)
    modifies config
    ensures agrees <==> AfterRecord(old(Rest(config)), time, disk).Some?
    ensures agrees ==> AfterRecord(old(Rest(config)), time, disk) == Some(Rest(config))
  {
    while true
      invariant AfterRecord(Rest(config), time, disk) == AfterRecord(old(Rest(config)), time, disk)
      decreases |config.rest|
    {
      var line := Gets(config);
      if line.None? || line.value == "" { return false; }
      if line.value[0] == '*' { return true; }
      if line.value[0] == '!' {
        if line.value[1..] in disk { return false; }
      } else {
        if line.value !in disk { return false; }
        if disk[line.value].mtime > time { return false; }
      }
    }
  }

  // ---- the entries of a key line ----

  /** The first entry of a line, and what follows it: a word, or anything between single quotes. */
  function FirstEntry(line: string): (r: (string, string)) {
    var l := Trimmed(line);
    if l == "" then ("", "")
    else if l[0] == '\'' then
      var end := Index(l[1..], '\'');
      if end == |l| - 1 then ("", "") else (l[1..end + 1], l[end + 2..])
    else (l[..Index(l, ' ')], l[Index(l, ' ')..])
  }

  function Index(s: string, c: char): (i: nat)
    ensures i <= |s| && (i < |s| ==> s[i] == c) && forall j :: 0 <= j < i ==> s[j] != c
  {
    if s == "" || s[0] == c then 0 else 1 + Index(s[1..], c)
  }

  lemma {:induction false} IndexIs(s: string, c: char, k: nat)
    requires k <= |s| && (k < |s| ==> s[k] == c) && forall j :: 0 <= j < k ==> s[j] != c
    ensures Index(s, c) == k
  {
    if k > 0 { IndexIs(s[1..], c, k - 1); }
  }

  method GetEntry(line: string) returns (entry: string, rest: string)
    ensures (entry, rest) == FirstEntry(line)
  {
    var l := Trimmed(line);
    entry := "";
    if l == "" { return "", ""; }
    if l[0] == '\'' {
      var pos := 1;
      while pos < |l| && l[pos] != '\''
        invariant 1 <= pos <= |l| && entry == l[1..pos] && forall j :: 1 <= j < pos ==> l[j] != '\''
      {
        entry := entry + [l[pos]];
        pos := pos + 1;
      }
      IndexIs(l[1..], '\'', pos - 1);
      if pos >= |l| { return "", ""; }
      rest := l[pos + 1..];
    } else {
      var pos := 0;
      while pos < |l| && l[pos] != ' '
        invariant 0 <= pos <= |l| && entry == l[..pos] && forall j :: 0 <= j < pos ==> l[j] != ' '
      {
        entry := entry + [l[pos]];
        pos := pos + 1;
      }
      IndexIs(l, ' ', pos);
      rest := l[pos..];
    }
  }

  /** What a key line asks for: one key, with a default, or a whole group. */
  datatype Request = Request(file: string, group: string, key: string, def: string) {

    predicate WholeGroup() { group != "" && group[0] == '[' && group[|group| - 1] == ']' }

    function GroupName(): string {
      if !WholeGroup() then group else if |group| == 1 then "" else group[1..|group| - 1]
    }

    predicate Complete() { file != "" && group != "" && (WholeGroup() || key != "") }
  }

  function RequestOf(line: string): Request {
    var a := FirstEntry(line);
    var b := FirstEntry(a.1);
    var c := FirstEntry(b.1);
    Request(a.0, b.0, c.0, FirstEntry(c.1).0)
  }

  // ---- the writer ----

  /** The groups of a configuration, each with its keys and values in order. */
  type Settings = map<string, seq<(string, string)>>

  /** Where configuration files are looked for, and what their contents, in this order, amount to. */
  datatype Environment = Environment(dirs: seq<string>, parse: seq<Option<string>> -> Settings, languages: string)

  datatype ScriptLine =
    | Header
    | Comment(line: string)
    | Assignment(variable: string, value: string)

  datatype Written = Written(code: int, script: seq<ScriptLine>, notes: seq<string>)

  function PathsOf(dirs: seq<string>, file: string): (r: seq<string>)
    ensures |r| == |dirs| && forall i :: 0 <= i < |r| ==> r[i] == dirs[i] + CONFIG_DIR + file
  {
    seq(|dirs|, i requires 0 <= i < |dirs| => dirs[i] + CONFIG_DIR + file)
  }

  function ContentsOf(disk: Disk, paths: seq<string>): (r: seq<Option<string>>)
    ensures |r| == |paths|
    ensures forall i :: 0 <= i < |r| ==> r[i] == if paths[i] in disk then Some(disk[paths[i]].content) else None
  {
    seq(|paths|, i requires 0 <= i < |paths| => if paths[i] in disk then Some(disk[paths[i]].content) else None)
  }

  function SettingsOf(env: Environment, disk: Disk, file: string): Settings {
    env.parse(ContentsOf(disk, PathsOf(env.dirs, file)))
  }

  function EntriesOf(settings: Settings, group: string): seq<(string, string)> {
    if group in settings then settings[group] else []
  }

  function ValueOf(entries: seq<(string, string)>, key: string, def: string): string {
    if entries == [] then def else if entries[0].0 == key then entries[0].1 else ValueOf(entries[1..], key, def)
  }

  function Variable(file: string, group: string, key: string): string {
    Lower(Underscored(file)) + "_" + Lower(Underscored(group)) + "_" + Lower(Underscored(key))
  }

  function Assignments(file: string, group: string, entries: seq<(string, string)>): (r: seq<ScriptLine>)
    ensures |r| == |entries|
    ensures forall i :: 0 <= i < |r| ==> r[i] == Assignment(Variable(file, group, entries[i].0), entries[i].1)
  {
    seq(|entries|, i requires 0 <= i < |entries| => Assignment(Variable(file, group, entries[i].0), entries[i].1))
  }

  /** What a request finds. */
  function Answer(r: Request, settings: Settings): seq<ScriptLine> {
    var entries := EntriesOf(settings, r.GroupName());
    if r.WholeGroup() then Assignments(r.file, r.GroupName(), entries)
    else [Assignment(Variable(r.file, r.group, r.key), ValueOf(entries, r.key, r.def))]
  }

  /** The file that is noted as the source of an answer: its name is spelled with underscores for spaces as soon as a
      variable was written, for the spelling of the variable replaces the name of the file. */
  function NotedFile(r: Request, settings: Settings): string {
    if Answer(r, settings) == [] then r.file else Underscored(r.file)
  }

  function NotesOf(paths: seq<string>, disk: Disk): (r: seq<string>)
    ensures |r| == |paths|
    ensures forall i :: 0 <= i < |r| ==> r[i] == if paths[i] in disk then paths[i] else "!" + paths[i]
  {
    seq(|paths|, i requires 0 <= i < |paths| => if paths[i] in disk then paths[i] else "!" + paths[i])
  }

  function Record(line: string, env: Environment, disk: Disk): seq<string> {
    var r := RequestOf(line);
    [line] + NotesOf(PathsOf(env.dirs, NotedFile(r, SettingsOf(env, disk, r.file))), disk) + ["*"]
  }

  function ScriptOf(line: string, env: Environment, disk: Disk): seq<ScriptLine> {
    var r := RequestOf(line);
    [Comment(line)] + Answer(r, SettingsOf(env, disk, r.file))
  }

  /** What the writer makes of these lines of the key file; it stops at an empty one, and gives up at one that does
      not name a file, a group and a key. */
  function WriteAll(keys: seq<string>, env: Environment, disk: Disk): Written
    decreases |keys|
  {
    if keys == [] || Trimmed(keys[0]) == "" then Written(0, [], [])
    else
      var line := Trimmed(keys[0]);
      var r := RequestOf(line);
      if r.file == "" || r.group == "" then Written(6, [], [])
      else if !r.Complete() then Written(7, [], [])
      else
        var w := WriteAll(keys[1..], env, disk);
        Written(w.code, ScriptOf(line, env, disk) + w.script, Record(line, env, disk) + w.notes)
  }

  /** Both files, complete with what comes before and after the lines for the keys. */
  function Write(keys: string, env: Environment, disk: Disk): Written {
    var w := WriteAll(Lines(keys, WRITER_LINE), env, disk);
    var last := if w.code == 0 then [Assignment("klocale_languages", env.languages)] else [];
    w.(script := [Header] + w.script + last)
  }

  /** A file made of these lines. */
  function TextOf(lines: seq<string>): string {
    if lines == [] then "" else lines[0] + "\n" + TextOf(lines[1..])
  }

  lemma Regrouped<T>(a: seq<T>, b: seq<T>, c: seq<T>, d: seq<T>)
    ensures a + (b + c + d) == (a + b + c) + d && a + (b + d) == (a + b) + d
  {
  }

  /** What has been written is what comes before the result for the lines that are left. */
  ghost predicate Leaves(total: Written, script: seq<ScriptLine>, notes: seq<string>, rest: Written) {
    total == Written(rest.code, script + rest.script, notes + rest.notes)
  }

  // ---- what the files say ----

  /** The entries of a line one by one: a word up to the next blank, or what stands between two quotes. */
  ghost predicate EntryIs(line: string, entry: string, rest: string) {
    var l := Trimmed(line);
    if l == "" || (l[0] == '\'' && '\'' !in l[1..]) then entry == "" && rest == ""
    else if l[0] == '\'' then '\'' !in entry && l == "'" + entry + "'" + rest
    else ' ' !in entry && l == entry + rest && (rest != "" ==> rest[0] == ' ')
  }

  lemma FirstEntryIs(line: string)
    ensures EntryIs(line, FirstEntry(line).0, FirstEntry(line).1)
  {
    var l := Trimmed(line);
    if l != "" && l[0] == '\'' {
      var end := Index(l[1..], '\'');
      if end < |l| - 1 {
        assert l[1..][end] == l[end + 1] == '\'';
        assert l == [l[0]] + l[1..end + 1] + [l[end + 1]] + l[end + 2..];
        assert forall i :: 1 <= i < end + 1 ==> l[i] == l[1..][i - 1];
      }
    } else if l != "" {
      assert l == l[..Index(l, ' ')] + l[Index(l, ' ')..];
    }
  }

  /** A line names a file, a group, a key and a default, in this order. */
  ghost predicate Asks(line: string, r: Request) {
    exists b, c, d, e :: EntryIs(line, r.file, b) && EntryIs(b, r.group, c) && EntryIs(c, r.key, d) && EntryIs(d, r.def, e)
  }

  lemma RequestAsks(line: string)
    ensures Asks(line, RequestOf(line))
  {
    hide EntryIs, FirstEntry;
    var a := FirstEntry(line);
    var b := FirstEntry(a.1);
    var c := FirstEntry(b.1);
    FirstEntryIs(line);
    FirstEntryIs(a.1);
    FirstEntryIs(b.1);
    FirstEntryIs(c.1);
  }

  /** Small letters, and underscores for blanks. */
  ghost predicate Spelled(s: string, t: string) {
    |t| == |s| && forall i :: 0 <= i < |s| ==>
      if s[i] == ' ' then t[i] == '_'
      else if 'A' <= s[i] && s[i] <= 'Z' then t[i] as int == s[i] as int + 32
      else t[i] == s[i]
  }

  /** The name of a variable: file, group and key with underscores between them. */
  ghost predicate Names(variable: string, file: string, group: string, key: string) {
    exists f, g, k :: Spelled(file, f) && Spelled(group, g) && Spelled(key, k) && variable == f + "_" + g + "_" + k
  }

  lemma LowerSpelled(s: string)
    ensures Spelled(s, Lower(Underscored(s)))
  {
  }

  lemma VariableNames(file: string, group: string, key: string)
    ensures Names(Variable(file, group, key), file, group, key)
  {
    hide Spelled, Lower, Underscored;
    LowerSpelled(file);
    LowerSpelled(group);
    LowerSpelled(key);
  }

  /** What can be read of the configuration file of this name, directory by directory. */
  ghost predicate Found(found: seq<Option<string>>, dirs: seq<string>, file: string, disk: Disk) {
    |found| == |dirs| && forall i :: 0 <= i < |dirs| ==>
      var path := dirs[i] + "share/config/" + file;
      found[i] == if path in disk then Some(disk[path].content) else None
  }

  ghost predicate FirstOf(entries: seq<(string, string)>, key: string, k: nat) {
    k < |entries| && entries[k].0 == key && forall j :: 0 <= j < k ==> entries[j].0 != key
  }

  /** In square brackets. */
  ghost predicate Bracketed(s: string) { "[" <= s && s[|s| - 1..] == "]" }

  /** The value of a key: that of its first entry in the group, or else the default. */
  ghost predicate Valued(value: string, settings: Settings, group: string, key: string, def: string) {
    && (group !in settings || (forall k :: 0 <= k < |settings[group]| ==> settings[group][k].0 != key) ==> value == def)
    && forall k: nat :: group in settings && FirstOf(settings[group], key, k) ==> value == settings[group][k].1
  }

  /** A whole group was asked for: one variable for each of its entries. */
  ghost predicate TellsGroup(part: seq<ScriptLine>, file: string, group: string, settings: Settings) {
    && |part| == 1 + (if group in settings then |settings[group]| else 0)
    && forall i :: 0 < i < |part| ==>
         part[i].Assignment? && part[i].value == settings[group][i - 1].1 && Names(part[i].variable, file, group, settings[group][i - 1].0)
  }

  ghost predicate TellsKey(part: seq<ScriptLine>, r: Request, settings: Settings) {
    && |part| == 2 && part[1].Assignment? && Names(part[1].variable, r.file, r.group, r.key)
    && Valued(part[1].value, settings, r.group, r.key, r.def)
  }

  /** What the script has for a line: the line as a comment, and the answer. */
  ghost predicate Tells(part: seq<ScriptLine>, line: string, r: Request, settings: Settings) {
    && part != [] && part[0] == Comment(line)
    && if Bracketed(r.group)
       then TellsGroup(part, r.file, if |r.group| < 2 then "" else r.group[1..|r.group| - 1], settings)
       else TellsKey(part, r, settings)
  }

  /** What the notes have for a line: the line, the file in each directory with a mark where there is none, and a star.
      The file's name has underscores for blanks if something was assigned. */
  ghost predicate Notes(record: seq<string>, line: string, file: string, answered: bool, dirs: seq<string>, disk: Disk) {
    && |record| == |dirs| + 2 && record[0] == line && record[|record| - 1] == "*"
    && forall i :: 0 <= i < |dirs| ==>
         var path := dirs[i] + "share/config/" + (if answered then Underscored(file) else file);
         record[i + 1] == if path in disk then path else "!" + path
  }

  lemma BracketedIs(r: Request)
    ensures r.WholeGroup() <==> Bracketed(r.group)
  {
    if r.group != "" {
      assert r.group[|r.group| - 1..] == [r.group[|r.group| - 1]];
      assert "[" <= r.group <==> r.group[0] == '[';
    }
  }

  lemma FirstValue(entries: seq<(string, string)>, key: string, def: string, k: nat)
    requires k <= |entries| && (k < |entries| ==> entries[k].0 == key) && forall j :: 0 <= j < k ==> entries[j].0 != key
    ensures ValueOf(entries, key, def) == if k < |entries| then entries[k].1 else def
  {
    if k > 0 { FirstValue(entries[1..], key, def, k - 1); }
  }

  lemma ValueIs(settings: Settings, group: string, key: string, def: string)
    ensures Valued(ValueOf(EntriesOf(settings, group), key, def), settings, group, key, def)
  {
    hide ValueOf;
    var entries := EntriesOf(settings, group);
    forall k: nat | FirstOf(entries, key, k) ensures ValueOf(entries, key, def) == entries[k].1 {
      FirstValue(entries, key, def, k);
    }
    if forall k :: 0 <= k < |entries| ==> entries[k].0 != key { FirstValue(entries, key, def, |entries|); }
  }

  lemma ScriptTells(line: string, r: Request, env: Environment, disk: Disk)
    requires r == RequestOf(line) && r.Complete()
    ensures Tells(ScriptOf(line, env, disk), line, r, SettingsOf(env, disk, r.file))
  {
    hide RequestOf, SettingsOf, Variable, ValueOf, Names, Valued;
    var settings := SettingsOf(env, disk, r.file);
    var entries := EntriesOf(settings, r.GroupName());
    BracketedIs(r);
    if r.WholeGroup() {
      forall i | 0 <= i < |entries|
        ensures Names(Variable(r.file, r.GroupName(), entries[i].0), r.file, r.GroupName(), entries[i].0)
      {
        VariableNames(r.file, r.GroupName(), entries[i].0);
      }
    } else {
      VariableNames(r.file, r.group, r.key);
      ValueIs(settings, r.group, r.key, r.def);
    }
  }

  lemma RecordNotes(line: string, r: Request, env: Environment, disk: Disk)
    requires r == RequestOf(line)
    ensures Notes(Record(line, env, disk), line, r.file, |ScriptOf(line, env, disk)| > 1, env.dirs, disk)
  {
    hide RequestOf, SettingsOf, Answer, Underscored, PathsOf, NotesOf;
    var file := NotedFile(r, SettingsOf(env, disk, r.file));
    assert file == if |ScriptOf(line, env, disk)| > 1 then Underscored(r.file) else r.file;
    ListedNotes(line, env.dirs, file, disk);
    SameNotes([line] + NotesOf(PathsOf(env.dirs, file), disk) + ["*"], line, r.file, |ScriptOf(line, env, disk)| > 1, env.dirs, disk, file);
  }

  lemma SameNotes(record: seq<string>, line: string, file: string, answered: bool, dirs: seq<string>, disk: Disk, spelled: string)
    requires spelled == if answered then Underscored(file) else file
    requires Notes(record, line, spelled, false, dirs, disk)
    ensures Notes(record, line, file, answered, dirs, disk)
  {
    hide Underscored;
  }

  lemma ListedNotes(line: string, dirs: seq<string>, file: string, disk: Disk)
    ensures Notes([line] + NotesOf(PathsOf(dirs, file), disk) + ["*"], line, file, false, dirs, disk)
  {
    hide Underscored;
    var record := [line] + NotesOf(PathsOf(dirs, file), disk) + ["*"];
    forall i | 0 <= i < |dirs| ensures record[i + 1] == NotesOf(PathsOf(dirs, file), disk)[i] {}
  }

  /** All that is said for a complete line. */
  ghost predicate Answers(line: string, part: seq<ScriptLine>, record: seq<string>, env: Environment, disk: Disk) {
    exists r: Request, found: seq<Option<string>> ::
      && Asks(line, r) && r.Complete() && Found(found, env.dirs, r.file, disk)
      && Tells(part, line, r, env.parse(found)) && Notes(record, line, r.file, |part| > 1, env.dirs, disk)
  }

  lemma LineAnswered(line: string, env: Environment, disk: Disk)
    requires RequestOf(line).Complete()
    ensures Answers(line, ScriptOf(line, env, disk), Record(line, env, disk), env, disk)
  {
    hide RequestOf, ScriptOf, Record, Tells, Notes, Asks, Found;
    var r := RequestOf(line);
    var found := ContentsOf(disk, PathsOf(env.dirs, r.file));
    RequestAsks(line);
    ContentsFound(env.dirs, r.file, disk);
    ScriptTells(line, r, env, disk);
    RecordNotes(line, r, env, disk);
    assert SettingsOf(env, disk, r.file) == env.parse(found);
  }

  lemma ContentsFound(dirs: seq<string>, file: string, disk: Disk)
    ensures Found(ContentsOf(disk, PathsOf(dirs, file)), dirs, file, disk)
  {
  }

  /** The first n lines have been answered, and why there are no more: an empty line or the end of the file, or a line
      without a file or a group, or without a key where one is needed. */
  ghost predicate Ends(code: int, n: nat, keys: seq<string>)
    requires n <= |keys|
  {
    if n == |keys| || (forall i :: 0 <= i < |keys[n]| ==> White(keys[n][i])) then code == 0
    else exists r :: Asks(Trimmed(keys[n]), r) && Refused(code, r)
  }

  ghost predicate Refused(code: int, r: Request) {
    if r.file == "" || r.group == "" then code == 6 else code == 7 && r.key == "" && !Bracketed(r.group)
  }

  ghost predicate Parts(w: Written, parts: seq<seq<ScriptLine>>, records: seq<seq<string>>, keys: seq<string>,
                        env: Environment, disk: Disk)
  {
    && |records| == |parts| <= |keys| && w.script == Joined(parts) && w.notes == Joined(records)
    && (forall i :: 0 <= i < |parts| ==> Answers(Trimmed(keys[i]), parts[i], records[i], env, disk))
    && (forall i :: 0 <= i < |parts| ==> Trimmed(keys[i]) != "")
    && Ends(w.code, |parts|, keys)
  }

  lemma TrimmedEmpty(s: string)
    ensures Trimmed(s) == "" <==> forall i :: 0 <= i < |s| ==> White(s[i])
  {
    var i, j := TrimmedIs(s);
    assert i < j ==> !White(s[i]);
  }

  lemma {:induction false} PartsWritten(keys: seq<string>, env: Environment, disk: Disk)
    returns (parts: seq<seq<ScriptLine>>, records: seq<seq<string>>)
    ensures Parts(WriteAll(keys, env, disk), parts, records, keys, env, disk)
  {
    hide RequestOf, ScriptOf, Record, Answers, Asks, Trimmed;
    parts, records := [], [];
    if keys != [] {
      TrimmedEmpty(keys[0]);
      var line := Trimmed(keys[0]);
      var r := RequestOf(line);
      if line != "" {
        RequestAsks(line);
        if r.Complete() {
          LineAnswered(line, env, disk);
          var ps, rs := PartsWritten(keys[1..], env, disk);
          parts, records := [ScriptOf(line, env, disk)] + ps, [Record(line, env, disk)] + rs;
          PartsOn(keys, ps, rs, env, disk);
        } else if r.file != "" && r.group != "" {
          BracketedIs(r);
        }
      }
    }
  }

  lemma PartsOn(keys: seq<string>, ps: seq<seq<ScriptLine>>, rs: seq<seq<string>>, env: Environment, disk: Disk)
    requires keys != [] && Trimmed(keys[0]) != "" && RequestOf(Trimmed(keys[0])).Complete()
    requires Parts(WriteAll(keys[1..], env, disk), ps, rs, keys[1..], env, disk)
    requires var line := Trimmed(keys[0]); Answers(line, ScriptOf(line, env, disk), Record(line, env, disk), env, disk)
    ensures var line := Trimmed(keys[0]);
      Parts(WriteAll(keys, env, disk), [ScriptOf(line, env, disk)] + ps, [Record(line, env, disk)] + rs, keys, env, disk)
  {
    hide RequestOf, ScriptOf, Record, Answers, Asks, Trimmed, White;
    var line := Trimmed(keys[0]);
    var parts, records := [ScriptOf(line, env, disk)] + ps, [Record(line, env, disk)] + rs;
    assert parts[1..] == ps && records[1..] == rs;
    forall i | 0 <= i < |parts|
      ensures Answers(Trimmed(keys[i]), parts[i], records[i], env, disk) && Trimmed(keys[i]) != ""
    {
      if i > 0 { assert keys[i] == keys[1..][i - 1] && parts[i] == ps[i - 1] && records[i] == rs[i - 1]; }
    }
    assert |parts| < |keys| ==> keys[|parts|] == keys[1..][|ps|];
  }

  /** What the writer has written for this key file. */
  ghost predicate Means(w: Written, keys: string, env: Environment, disk: Disk) {
    exists parts, records ::
      Parts(Written(w.code, Joined(parts), w.notes), parts, records, Lines(keys, WRITER_LINE), env, disk) &&
      w.script == [Header] + Joined(parts) + (if w.code == 0 then [Assignment("klocale_languages", env.languages)] else [])
  }

  lemma WrittenMeans(keys: string, env: Environment, disk: Disk)
    ensures Means(Write(keys, env, disk), keys, env, disk)
  {
    hide WriteAll, Lines, Parts;
    var parts, records := PartsWritten(Lines(keys, WRITER_LINE), env, disk);
    PartsJoin(WriteAll(Lines(keys, WRITER_LINE), env, disk), parts, records, Lines(keys, WRITER_LINE), env, disk);
  }

  lemma PartsJoin(w: Written, parts: seq<seq<ScriptLine>>, records: seq<seq<string>>, keys: seq<string>, env: Environment, disk: Disk)
    requires Parts(w, parts, records, keys, env, disk)
    ensures w == Written(w.code, Joined(parts), w.notes)
  {
  }

  /** Nothing is written if a file cannot be opened; a file that has been opened is empty until something is. */
  method WriteConfig(keys: Option<string>, scriptOpens: bool, notesOpen: bool, env: Environment, disk: Disk)
    returns (code: int, startupconfig: Option<seq<ScriptLine>>, startupconfigfiles: Option<seq<string>>)
    ensures keys.None? ==> code == 3
    ensures keys.Some? && !scriptOpens ==> code == 4
    ensures keys.Some? && scriptOpens && !notesOpen ==> code == 5
    ensures startupconfig.None? <==> keys.None? || !scriptOpens
    ensures startupconfigfiles.None? <==> keys.None? || !scriptOpens || !notesOpen
    ensures startupconfig.Some? && startupconfigfiles.None? ==> startupconfig.value == []
    ensures startupconfigfiles.Some? ==>
      Written(code, startupconfig.value, startupconfigfiles.value) == Write(keys.value, env, disk)
    ensures startupconfigfiles.Some? ==>
      Means(Written(code, startupconfig.value, startupconfigfiles.value), keys.value, env, disk)
  {
    hide Write, Means;
    if keys.None? { return 3, None, None; }
    if !scriptOpens { return 4, None, None; }
    if !notesOpen { return 5, Some([]), None; }
    var script, notes;
    code, script, notes := WriteLines(keys.value, env, disk);
    startupconfig, startupconfigfiles := Some(script), Some(notes);
    WrittenMeans(keys.value, env, disk);
  }

  method WriteLines(keys: string, env: Environment, disk: Disk)
    returns (code: int, startupconfig: seq<ScriptLine>, startupconfigfiles: seq<string>)
    ensures Written(code, startupconfig, startupconfigfiles) == Write(keys, env, disk)
  {
    startupconfig, startupconfigfiles := [], [];
    var keysFile := new TextFile(keys);
    startupconfig := [Header];
    ghost var all := WriteAll(Lines(keys, WRITER_LINE), env, disk);
    ghost var total := all.(script := [Header] + all.script);
    while true
      invariant Leaves(total, startupconfig, startupconfigfiles, WriteAll(Lines(keysFile.rest, WRITER_LINE), env, disk))
      decreases |keysFile.rest|
    {
      hide Leaves, ScriptOf, Record, RequestOf, Answer, SettingsOf;
      ghost var before := Written(0, startupconfig, startupconfigfiles);
      ghost var left := Lines(keysFile.rest, WRITER_LINE);
      var line := keysFile.ReadLine(WRITER_LINE);
      if line == "" {
        Finished(total, startupconfig, startupconfigfiles, WriteAll(left, env, disk));
        break;
      }
      line := Trimmed(line);
      if line == "" {
        Finished(total, startupconfig, startupconfigfiles, WriteAll(left, env, disk));
        break;
      }
      var request := ReadRequest(line);
      if request.file == "" || request.group == "" {
        Finished(total, startupconfig, startupconfigfiles, WriteAll(left, env, disk));
        return 6, startupconfig, startupconfigfiles;
      }
      if !request.WholeGroup() && request.key == "" {
        Finished(total, startupconfig, startupconfigfiles, WriteAll(left, env, disk));
        return 7, startupconfig, startupconfigfiles;
      }
      startupconfig := startupconfig + [Comment(line)];
      var answer, file := WriteAnswer(request, env, disk);
      startupconfig := startupconfig + answer;
      var record := WriteRecord(line, file, env, disk);
      startupconfigfiles := startupconfigfiles + record;
      Continues(total, before, line, env, disk, WriteAll(Lines(keysFile.rest, WRITER_LINE), env, disk), WriteAll(left, env, disk));
    }
    code := 0;
    startupconfig := startupconfig + [Assignment("klocale_languages", env.languages)];
  }

  lemma Finished(total: Written, script: seq<ScriptLine>, notes: seq<string>, rest: Written)
    requires Leaves(total, script, notes, rest) && rest.script == [] && rest.notes == []
    ensures total == Written(rest.code, script, notes)
  {
  }

  lemma Continues(total: Written, done: Written, line: string, env: Environment, disk: Disk, rest: Written, before: Written)
    requires Leaves(total, done.script, done.notes, before)
    requires before == Written(rest.code, ScriptOf(line, env, disk) + rest.script, Record(line, env, disk) + rest.notes)
    ensures var r := RequestOf(line);
      Leaves(total, done.script + [Comment(line)] + Answer(r, SettingsOf(env, disk, r.file)),
             done.notes + Record(line, env, disk), rest)
  {
    hide Answer, SettingsOf, RequestOf, Record;
    var r := RequestOf(line);
    Regrouped(done.script, [Comment(line)], Answer(r, SettingsOf(env, disk, r.file)), rest.script);
    Regrouped(done.notes, Record(line, env, disk), [], rest.notes);
  }

  method ReadRequest(line: string) returns (r: Request)
    ensures r == RequestOf(line)
  {
    var file, rest := GetEntry(line);
    var group, rest' := GetEntry(rest);
    var key, rest'' := GetEntry(rest');
    var def, _ := GetEntry(rest'');
    r := Request(file, group, key, def);
  }

  /** Writes the variables, and respells the name of the file as it goes. */
  method WriteAnswer(r: Request, env: Environment, disk: Disk) returns (script: seq<ScriptLine>, file: string)
    ensures script == Answer(r, SettingsOf(env, disk, r.file))
    ensures file == NotedFile(r, SettingsOf(env, disk, r.file))
  {
    hide Variable, Underscored, SettingsOf;
    var settings := SettingsOf(env, disk, r.file);
    file, script := r.file, [];
    if r.WholeGroup() {
      var entries := EntriesOf(settings, r.GroupName());
      ghost var expected := Assignments(r.file, r.GroupName(), entries);
      for i := 0 to |entries|
        invariant script == expected[..i]
        invariant file == if i == 0 then r.file else Underscored(r.file)
      {
        RespelledTwice(r.file, r.GroupName(), entries[i].0);
        file := Underscored(file);
        script := script + [Assignment(Variable(file, r.GroupName(), entries[i].0), entries[i].1)];
        assert expected[..i + 1] == expected[..i] + [expected[i]];
      }
      assert expected[..|entries|] == expected;
    } else {
      RespelledTwice(r.file, r.group, r.key);
      file := Underscored(file);
      script := [Assignment(Variable(file, r.group, r.key), ValueOf(EntriesOf(settings, r.group), r.key, r.def))];
    }
  }

  lemma RespelledTwice(file: string, group: string, key: string)
    ensures Underscored(Underscored(file)) == Underscored(file)
    ensures Variable(Underscored(file), group, key) == Variable(file, group, key)
  {
  }

  method WriteRecord(line: string, file: string, env: Environment, disk: Disk) returns (notes: seq<string>)
    ensures notes == [line] + NotesOf(PathsOf(env.dirs, file), disk) + ["*"]
  {
    hide PathsOf, NotesOf;
    ghost var listed := NotesOf(PathsOf(env.dirs, file), disk);
    notes := [line];
    for i := 0 to |env.dirs|
      invariant notes == [line] + listed[..i]
    {
      var cfg := env.dirs[i] + CONFIG_DIR + file;
      assert listed[i] == if cfg in disk then cfg else "!" + cfg;
      SliceGrows(listed, i);
      notes := notes + [if cfg in disk then cfg else "!" + cfg];
    }
    assert listed[..|env.dirs|] == listed;
    notes := notes + ["*"];
  }

  lemma SliceGrows<T>(s: seq<T>, i: nat)
    requires i < |s|
    ensures s[..i + 1] == s[..i] + [s[i]]
  {
  }
}
