/**
 What the verdict of the checker means: a fresh cache is one that would be written again as it is.
 */
module StartupFresh {
  import opened Strings
  import opened StartupConfig

  // ---- the verdict, without the reading ----

  /** The notes on one key line: the line, the files, and a line with a star. */
  datatype Noted = Noted(key: string, files: seq<string>, end: string) {
    ghost predicate Sound(time: int, disk: Disk) {
      && end != "" && end[0] == '*'
      && forall i :: 0 <= i < |files| ==> files[i] != "" && files[i][0] != '*' && Holds(files[i], time, disk)
    }
  }

  function Flat(records: seq<Noted>): seq<string> {
    if records == [] then [] else
      [records[0].key] + (records[0].files + [records[0].end] + Flat(records[1..]))
  }

  /** The notes begin with a record for each key line, in order, and everything these records say still holds. */
  ghost predicate Covers(records: seq<Noted>, keys: seq<string>, notes: seq<string>, time: int, disk: Disk) {
    && |records| == |keys| && Flat(records) <= notes
    && forall i :: 0 <= i < |keys| ==> records[i].key == keys[i] && records[i].Sound(time, disk)
  }

  ghost predicate HasRecords(keys: seq<string>, notes: seq<string>, time: int, disk: Disk) {
    exists records :: Covers(records, keys, notes, time, disk)
  }

  lemma {:induction false} RecordFound(notes: seq<string>, time: int, disk: Disk) returns (r: Noted)
    requires AfterRecord(notes, time, disk).Some?
    ensures r.Sound(time, disk)
    ensures notes == r.files + [r.end] + AfterRecord(notes, time, disk).value
  {
    if notes[0][0] == '*' {
      r := Noted("", [], notes[0]);
    } else {
      r := RecordFound(notes[1..], time, disk);
      assert notes == [notes[0]] + notes[1..];
      r := Noted("", [notes[0]] + r.files, r.end);
    }
  }

  lemma {:induction false} RecordSkipped(r: Noted, rest: seq<string>, time: int, disk: Disk)
    requires r.Sound(time, disk)
    ensures AfterRecord(r.files + [r.end] + rest, time, disk) == Some(rest)
    decreases |r.files|
  {
    var notes := r.files + [r.end] + rest;
    if r.files == [] {
      assert notes[1..] == rest;
    } else {
      var shorter := r.(files := r.files[1..]);
      RecordSkipped(shorter, rest, time, disk);
      assert notes[1..] == shorter.files + [r.end] + rest;
    }
  }

  lemma {:induction false} Cover(keys: seq<string>, notes: seq<string>, time: int, disk: Disk)
    returns (records: seq<Noted>)
    requires UpToDate(keys, notes, time, disk)
    ensures Covers(records, keys, notes, time, disk)
  {
    if keys == [] { return []; }
    var r := RecordFound(notes[1..], time, disk);
    var rest := AfterRecord(notes[1..], time, disk).value;
    var more := Cover(keys[1..], rest, time, disk);
    records := [r.(key := keys[0])] + more;
    assert records[1..] == more;
    assert notes == [notes[0]] + (r.files + [r.end] + rest);
    CoverOn(r.(key := keys[0]), more, keys, notes, rest, time, disk);
  }

  lemma CoverOn(r: Noted, more: seq<Noted>, keys: seq<string>, notes: seq<string>, rest: seq<string>, time: int,
                disk: Disk)
    requires keys != [] && r.key == keys[0] && r.Sound(time, disk) && Covers(more, keys[1..], rest, time, disk)
    requires notes == [r.key] + (r.files + [r.end] + rest)
    ensures Covers([r] + more, keys, notes, time, disk)
  {
    var all := [r] + more;
    assert all[1..] == more;
    var flat, head := Flat(more), [r.key] + (r.files + [r.end]);
    assert rest == flat + rest[|flat|..];
    assert Flat(all) == head + flat;
    assert notes == head + flat + rest[|flat|..];
    forall i | 0 <= i < |keys| ensures all[i].key == keys[i] && all[i].Sound(time, disk) {
      if i > 0 { assert all[i] == more[i - 1] && keys[i] == keys[1..][i - 1]; }
    }
  }

  lemma {:induction false} Covered(records: seq<Noted>, keys: seq<string>, notes: seq<string>, time: int, disk: Disk)
    requires Covers(records, keys, notes, time, disk)
    ensures UpToDate(keys, notes, time, disk)
    decreases |keys|
  {
    if keys != [] {
      var r, flat := records[0], Flat(records[1..]);
      var rest := flat + notes[|Flat(records)|..];
      assert notes == Flat(records) + notes[|Flat(records)|..];
      assert notes[1..] == r.files + [r.end] + rest;
      RecordSkipped(r, rest, time, disk);
      assert flat <= rest;
      Covered(records[1..], keys[1..], rest, time, disk);
    }
  }

  /** The checker finds the cache fresh just when its notes have a record of its own for every current key line, and
      all files named there are as they were noted. */
  lemma FreshIsCovered(keys: string, notes: string, time: int, disk: Disk)
    ensures var keyLines, lines := ChopAll(Lines(keys, CHECKER_LINE)), ChopAll(Lines(notes, CHECKER_LINE));
      Judge(Some(keys), true, Some((notes, time)), disk) == Fresh
      <==> HasRecords(keyLines, lines, time, disk)
  {
    hide UpToDate, HasRecords, Lines, ChopAll;
    var k, n := ChopAll(Lines(keys, CHECKER_LINE)), ChopAll(Lines(notes, CHECKER_LINE));
    CoveredExactly(k, n, time, disk);
  }

  lemma CoveredExactly(keys: seq<string>, notes: seq<string>, time: int, disk: Disk)
    ensures UpToDate(keys, notes, time, disk) <==> HasRecords(keys, notes, time, disk)
  {
    hide UpToDate, Covers;
    if UpToDate(keys, notes, time, disk) {
      var records := Cover(keys, notes, time, disk);
    } else if records :| Covers(records, keys, notes, time, disk) {
      Covered(records, keys, notes, time, disk);
    }
  }

  // ---- lines written and read ----

  lemma {:induction false} LinesOfText(lines: seq<string>, max: nat)
    requires max > 0 && forall i :: 0 <= i < |lines| ==> |lines[i]| < max && '\n' !in lines[i]
    ensures ChopAll(Lines(TextOf(lines), max)) == lines
  {
    if lines != [] {
      var s, line := TextOf(lines), lines[0] + "\n";
      assert s == line + TextOf(lines[1..]);
      LengthIs(s, max, |line|);
      assert s[..|line|] == line && s[|line|..] == TextOf(lines[1..]);
      LinesOfText(lines[1..], max);
      assert Chop(line) == lines[0];
      ChopSplits([line], Lines(TextOf(lines[1..]), max));
    }
  }

  /** Where all lines are short, it does not matter how much one read may take. */
  lemma {:induction false} ShortLines(s: string, max: nat, max': nat)
    requires max > 0 && max' > 0
    requires forall i :: 0 <= i < |Lines(s, max)| ==> |Chop(Lines(s, max)[i])| < max && |Chop(Lines(s, max)[i])| < max'
    ensures Lines(s, max) == Lines(s, max')
    decreases |s|
  {
    if s != "" {
      var n := LineLength(s, max);
      var lines := Lines(s, max);
      assert lines[0] == s[..n] && lines[1..] == Lines(s[n..], max);
      assert |Chop(lines[0])| < max && |Chop(lines[0])| < max';
      LengthIs(s, max', n);
      forall i | 0 <= i < |lines[1..]| ensures |Chop(lines[1..][i])| < max && |Chop(lines[1..][i])| < max' {
        assert lines[1..][i] == lines[i + 1];
      }
      ShortLines(s[n..], max, max');
    }
  }

  lemma TrimmedChop(line: string)
    ensures Trimmed(Chop(line)) == Trimmed(line)
  {
    if line != "" && line[|line| - 1] == '\n' {
      TrimmedEnd(Chop(line), '\n');
      assert Chop(line) + ['\n'] == line;
    }
  }

  lemma {:induction false} NewlineLast(s: string, max: nat)
    requires max > 0
    ensures forall i :: 0 <= i < |Lines(s, max)| ==> '\n' !in Chop(Lines(s, max)[i])
    decreases |s|
  {
    if s != "" {
      var n := LineLength(s, max);
      assert Lines(s, max) == [s[..n]] + Lines(s[n..], max);
      NewlineLast(s[n..], max);
    }
  }

  /** The writer trims, so the newline makes no difference to it. */
  lemma {:induction false} WriteChopped(lines: seq<string>, env: Environment, disk: Disk)
    ensures WriteAll(ChopAll(lines), env, disk) == WriteAll(lines, env, disk)
  {
    if lines != [] {
      TrimmedChop(lines[0]);
      assert ChopAll(lines)[1..] == ChopAll(lines[1..]);
      WriteChopped(lines[1..], env, disk);
    }
  }

  // ---- the cache agrees with its own notes ----

  /** Directories are absolute, and named on one line. */
  predicate Absolute(dirs: seq<string>) {
    forall i :: 0 <= i < |dirs| ==> dirs[i] != "" && dirs[i][0] == '/' && '\n' !in dirs[i]
  }

  predicate AllHold(notes: seq<string>, time: int, disk: Disk) {
    forall i :: 0 <= i < |notes| ==> notes[i] != "" && Holds(notes[i], time, disk)
  }

  lemma {:induction false} OwnRecord(notes: seq<string>, rest: seq<string>, time: int, disk: Disk)
    requires forall i :: 0 <= i < |notes| ==> notes[i] != "" && notes[i][0] != '*'
    ensures AfterRecord(notes + ["*"] + rest, time, disk) == if AllHold(notes, time, disk) then Some(rest) else None
  {
    var all := notes + ["*"] + rest;
    if notes == [] {
      assert all[1..] == rest;
    } else {
      assert all[1..] == notes[1..] + ["*"] + rest;
      OwnRecord(notes[1..], rest, time, disk);
      assert AllHold(notes, time, disk) <==> Holds(notes[0], time, disk) && AllHold(notes[1..], time, disk) by {
        assert forall i :: 0 < i < |notes| ==> notes[i] == notes[1..][i - 1];
      }
    }
  }

  /** The files noted for one line. */
  function NotesFor(line: string, env: Environment, disk: Disk): seq<string> {
    var r := RequestOf(line);
    NotesOf(PathsOf(env.dirs, NotedFile(r, SettingsOf(env, disk, r.file))), disk)
  }

  lemma OwnNotes(line: string, rest: seq<string>, env: Environment, disk: Disk, time: int, disk': Disk)
    requires Absolute(env.dirs)
    ensures AfterRecord((Record(line, env, disk) + rest)[1..], time, disk')
            == if AllHold(NotesFor(line, env, disk), time, disk') then Some(rest) else None
  {
    hide NotedFile, RequestOf, SettingsOf, AllHold;
    var notes := NotesFor(line, env, disk);
    assert (Record(line, env, disk) + rest)[1..] == notes + ["*"] + rest;
    OwnRecord(notes, rest, time, disk');
  }

  lemma NothingNewer(line: string, env: Environment, disk: Disk, time: int)
    requires Absolute(env.dirs) && forall path :: path in disk ==> disk[path].mtime <= time
    ensures AllHold(NotesFor(line, env, disk), time, disk)
  {
    hide NotedFile, RequestOf, SettingsOf;
    var r := RequestOf(line);
    var paths := PathsOf(env.dirs, NotedFile(r, SettingsOf(env, disk, r.file)));
    forall i | 0 <= i < |paths| ensures ("!" + paths[i])[1..] == paths[i] {}
  }

  predicate Tidy(lines: seq<string>) {
    forall i :: 0 <= i < |lines| ==> lines[i] != "" && IsTrimmed(lines[i])
  }

  lemma {:induction false} TidyLinesAgree(lines: seq<string>, env: Environment, disk: Disk, time: int)
    requires Absolute(env.dirs) && forall path :: path in disk ==> disk[path].mtime <= time
    requires WriteAll(lines, env, disk).code == 0
    ensures UpToDate(ChopAll(lines), WriteAll(lines, env, disk).notes, time, disk) <==> Tidy(ChopAll(lines))
  {
    hide Record, RequestOf, SettingsOf, AllHold, NotesFor, ScriptOf;
    if lines != [] {
      var keys, line := ChopAll(lines), Trimmed(lines[0]);
      TrimmedChop(lines[0]);
      assert keys[1..] == ChopAll(lines[1..]);
      if line != "" {
        var w := WriteAll(lines[1..], env, disk);
        StartsWithLine(line, w.notes, env, disk);
        OwnNotes(line, w.notes, env, disk, time, disk);
        NothingNewer(line, env, disk, time);
        TidyLinesAgree(lines[1..], env, disk, time);
        assert Tidy(keys) <==> keys[0] != "" && IsTrimmed(keys[0]) && Tidy(keys[1..]) by {
          assert forall i :: 0 < i < |keys| ==> keys[i] == keys[1..][i - 1];
        }
      } else {
        assert !(keys[0] != "" && IsTrimmed(keys[0]));
      }
    }
  }

  lemma StartsWithLine(line: string, rest: seq<string>, env: Environment, disk: Disk)
    ensures Record(line, env, disk) != [] && (Record(line, env, disk) + rest)[0] == line
  {
  }

  lemma EntryPart(line: string, c: char)
    requires c !in line
    ensures c !in FirstEntry(line).0
  {
    TrimmedPart(line, c);
  }

  lemma PathsOnOneLine(dirs: seq<string>, file: string, disk: Disk, note: string)
    requires Absolute(dirs) && '\n' !in file && note in NotesOf(PathsOf(dirs, file), disk)
    ensures '\n' !in note
  {
    var paths := PathsOf(dirs, file);
    var i :| 0 <= i < |paths| && note == NotesOf(paths, disk)[i];
    assert '\n' !in CONFIG_DIR && '\n' !in dirs[i] + CONFIG_DIR + file;
  }

  lemma NoteOnOneLine(line: string, env: Environment, disk: Disk, note: string)
    requires Absolute(env.dirs) && '\n' !in line && note in Record(line, env, disk)
    ensures '\n' !in note
  {
    hide SettingsOf, FirstEntry, Absolute, NotesOf, PathsOf;
    var r := RequestOf(line);
    EntryPart(line, '\n');
    var file := NotedFile(r, SettingsOf(env, disk, r.file));
    assert '\n' !in file;
    if note != line && note != "*" { PathsOnOneLine(env.dirs, file, disk, note); }
  }

  lemma {:induction false} NotesOnOneLine(lines: seq<string>, env: Environment, disk: Disk)
    requires Absolute(env.dirs) && forall i :: 0 <= i < |lines| ==> '\n' !in Chop(lines[i])
    ensures forall note :: note in WriteAll(lines, env, disk).notes ==> '\n' !in note
  {
    hide RequestOf, SettingsOf, Record, ScriptOf;
    if lines != [] {
      var line := Trimmed(lines[0]);
      TrimmedChop(lines[0]);
      TrimmedPart(Chop(lines[0]), '\n');
      NotesOnOneLine(lines[1..], env, disk);
      forall note | note in Record(line, env, disk) ensures '\n' !in note { NoteOnOneLine(line, env, disk, note); }
    }
  }

  /** No note is longer than what the checker reads at once. */
  predicate ShortNotes(notes: seq<string>) { forall i :: 0 <= i < |notes| ==> |notes[i]| < CHECKER_LINE }

  lemma NotesReadBack(keys: string, env: Environment, disk: Disk)
    requires Absolute(env.dirs) && ShortNotes(Write(keys, env, disk).notes)
    ensures ChopAll(Lines(TextOf(Write(keys, env, disk).notes), CHECKER_LINE)) == Write(keys, env, disk).notes
  {
    hide WriteAll, Lines, Chop;
    NewlineLast(keys, WRITER_LINE);
    NotesOnOneLine(Lines(keys, WRITER_LINE), env, disk);
    LinesOfText(Write(keys, env, disk).notes, CHECKER_LINE);
  }

  /** With nothing changed since the writer has finished, the checker finds the cache fresh just when all key lines are
      trimmed and none is empty; otherwise the writer runs every time. */
  lemma FreshAfterWriting(keys: string, env: Environment, disk: Disk, time: int)
    requires Absolute(env.dirs) && ShortNotes(Write(keys, env, disk).notes)
    requires ShortNotes(ChopAll(Lines(keys, WRITER_LINE)))
    requires Write(keys, env, disk).code == 0
    requires forall path :: path in disk ==> disk[path].mtime <= time
    ensures var verdict := Judge(Some(keys), true, Some((TextOf(Write(keys, env, disk).notes), time)), disk);
      verdict == if Tidy(ChopAll(Lines(keys, WRITER_LINE))) then Fresh else Update
  {
    hide UpToDate, Lines, ChopAll, Tidy, WriteAll, TextOf;
    var lines := Lines(keys, WRITER_LINE);
    NotesReadBack(keys, env, disk);
    SameLines(keys);
    TidyLinesAgree(lines, env, disk, time);
  }

  lemma SameLines(keys: string)
    requires ShortNotes(ChopAll(Lines(keys, WRITER_LINE)))
    ensures Lines(keys, CHECKER_LINE) == Lines(keys, WRITER_LINE)
  {
    hide Lines;
    var lines := Lines(keys, WRITER_LINE);
    forall i | 0 <= i < |lines| ensures |Chop(lines[i])| < CHECKER_LINE { assert ChopAll(lines)[i] == Chop(lines[i]); }
    ShortLines(keys, WRITER_LINE, CHECKER_LINE);
  }

  // ---- a fresh cache is what would be written now ----

  /** Files may have come, gone or changed; whoever changes one after the given time leaves a later time stamp. */
  predicate Later(disk: Disk, disk': Disk, time: int) {
    forall path :: path in disk && path in disk' && disk'[path].mtime <= time
      ==> disk'[path].content == disk[path].content
  }

  /** No line names a file with a space in it. */
  predicate NoSpaces(lines: seq<string>) { forall i :: 0 <= i < |lines| ==> ' ' !in RequestOf(lines[i]).file }

  predicate AllIn(lines: seq<string>, notes: seq<string>) { forall i :: 0 <= i < |lines| ==> lines[i] in notes }

  lemma SameContents(paths: seq<string>, disk: Disk, disk': Disk, time: int)
    requires forall i :: 0 <= i < |paths| ==> paths[i] != "" && paths[i][0] == '/'
    requires Later(disk, disk', time) && AllHold(NotesOf(paths, disk), time, disk')
    ensures ContentsOf(disk, paths) == ContentsOf(disk', paths)
  {
    var notes := NotesOf(paths, disk);
    forall i | 0 <= i < |paths|
      ensures paths[i] in disk <==> paths[i] in disk'
      ensures paths[i] in disk ==> disk[paths[i]].content == disk'[paths[i]].content
    {
      assert Holds(notes[i], time, disk');
      assert ("!" + paths[i])[1..] == paths[i];
    }
  }

  lemma SameAnswer(line: string, env: Environment, disk: Disk, disk': Disk, time: int)
    requires Absolute(env.dirs) && Later(disk, disk', time)
    requires ' ' !in RequestOf(line).file
    requires AllHold(NotesFor(line, env, disk), time, disk')
    ensures ScriptOf(line, env, disk') == ScriptOf(line, env, disk)
  {
    hide RequestOf, Later, AllHold, Answer;
    var r := RequestOf(line);
    assert NotedFile(r, SettingsOf(env, disk, r.file)) == r.file;
    SameContents(PathsOf(env.dirs, r.file), disk, disk', time);
  }

  lemma PrefixOn<T>(a: seq<T>, b: seq<T>, c: seq<T>)
    requires b <= c
    ensures a + b <= a + c
  {
  }

  lemma {:induction false} SameAnswers(keys: seq<string>, lines: seq<string>, env: Environment, disk: Disk,
                                       disk': Disk, time: int)
    requires Absolute(env.dirs) && Later(disk, disk', time)
    requires NoSpaces(keys)
    requires UpToDate(keys, WriteAll(lines, env, disk).notes, time, disk')
    ensures WriteAll(keys, env, disk').code == 0
    ensures WriteAll(keys, env, disk').script <= WriteAll(lines, env, disk).script
    decreases |keys|
  {
    hide Record, RequestOf, SettingsOf, AllHold, NotesFor, ScriptOf, Later;
    if keys != [] {
      var line, w := Trimmed(lines[0]), WriteAll(lines[1..], env, disk);
      StartsWithLine(line, w.notes, env, disk);
      OwnNotes(line, w.notes, env, disk, time, disk');
      SameAnswer(line, env, disk, disk', time);
      SameAnswers(keys[1..], lines[1..], env, disk, disk', time);
      var w' := WriteAll(keys[1..], env, disk');
      PrefixOn(ScriptOf(line, env, disk), w'.script, w.script);
    }
  }

  lemma {:induction false} KeysWereWritten(keys: seq<string>, lines: seq<string>, env: Environment, disk: Disk,
                                           disk': Disk, time: int)
    requires Absolute(env.dirs) && UpToDate(keys, WriteAll(lines, env, disk).notes, time, disk')
    ensures AllIn(keys, WriteAll(lines, env, disk).notes)
    decreases |keys|
  {
    hide Record, RequestOf, SettingsOf, AllHold, NotesFor, ScriptOf;
    if keys != [] {
      var line, w := Trimmed(lines[0]), WriteAll(lines[1..], env, disk);
      StartsWithLine(line, w.notes, env, disk);
      OwnNotes(line, w.notes, env, disk, time, disk');
      KeysWereWritten(keys[1..], lines[1..], env, disk, disk', time);
      forall i | 0 <= i < |keys| ensures keys[i] in WriteAll(lines, env, disk).notes {
        if i > 0 { assert keys[i] == keys[1..][i - 1]; }
      }
    }
  }

  /** If the checker finds a cache fresh that was written for other keys and another state of the disk, then running
      the writer now would succeed, and everything it would write for the current keys, values included, is what the
      cache begins with. This needs that no current key line names a file with a space in it. */
  lemma FreshMeansUnchanged(written: string, keys: string, env: Environment, disk: Disk, disk': Disk, time: int)
    requires Absolute(env.dirs) && ShortNotes(Write(written, env, disk).notes)
    requires Later(disk, disk', time)
    requires Judge(Some(keys), true, Some((TextOf(Write(written, env, disk).notes), time)), disk') == Fresh
    requires NoSpaces(ChopAll(Lines(keys, CHECKER_LINE)))
    ensures var w := Write(keys, env, disk');
      w.code == 0 && w.script[..|w.script| - 1] <= Write(written, env, disk).script
  {
    hide UpToDate, Lines, WriteAll, TextOf, ChopAll, Later, RequestOf, NoSpaces, AllIn;
    var old', now := Lines(written, WRITER_LINE), ChopAll(Lines(keys, CHECKER_LINE));
    NotesReadBack(written, env, disk);
    SameAnswers(now, old', env, disk, disk', time);
    KeysWereWritten(now, old', env, disk, disk', time);
    ShortKeys(keys, WriteAll(old', env, disk).notes);
    WriteChopped(Lines(keys, WRITER_LINE), env, disk');
    var w, w' := WriteAll(old', env, disk), WriteAll(now, env, disk');
    PrefixOn([Header], w'.script, w.script);
  }

  lemma ShortKeys(keys: string, notes: seq<string>)
    requires ShortNotes(notes)
    requires AllIn(ChopAll(Lines(keys, CHECKER_LINE)), notes)
    ensures Lines(keys, WRITER_LINE) == Lines(keys, CHECKER_LINE)
  {
    hide Lines;
    var lines := Lines(keys, CHECKER_LINE);
    forall i | 0 <= i < |lines| ensures |Chop(lines[i])| < CHECKER_LINE { assert ChopAll(lines)[i] == Chop(lines[i]); }
    ShortLines(keys, CHECKER_LINE, WRITER_LINE);
  }

  /** For any key line with a space in the name of its file the checker can be wrong: there are contents of configuration
      files and a later state of the disk with another value for the line, and the cache passes for fresh. */
  lemma StaleWhenSpaced(line: string, dirs: seq<string>, languages: string, time: int)
    returns (env: Environment, disk: Disk)
    requires Absolute(dirs) && dirs != [] && line != "" && IsTrimmed(line) && |line| < CHECKER_LINE
    requires '\n' !in line
    requires var r := RequestOf(line); r.Complete() && ' ' in r.file
    requires ShortNotes(NotesOf(PathsOf(dirs, Underscored(RequestOf(line).file)), map[]))
    ensures env.dirs == dirs && env.languages == languages && Later(map[], disk, time)
    ensures Write(line, env, map[]).code == 0 && ShortNotes(Write(line, env, map[]).notes)
    ensures Judge(Some(line), true, Some((TextOf(Write(line, env, map[]).notes), time)), disk) == Fresh
    ensures Write(line, env, disk).code == 0 && |Write(line, env, disk).script| == |Write(line, env, map[]).script|
    ensures Write(line, env, disk).script != Write(line, env, map[]).script
  {
    hide Lines, TextOf, UpToDate, ShortNotes, Later, Write, RequestOf, NotesOf, Judge, Absolute, OneValue, PathsOf,
      Underscored, IsTrimmed, Trimmed;
    var r := RequestOf(line);
    disk := map[dirs[0] + CONFIG_DIR + r.file := FileState(time + 1, "")];
    env := Environment(dirs, found => OneValue(r, found), languages);
    StaysFresh(line, env, disk, time);
    NothingBefore(disk, time);
    ScriptsDiffer(line, env, disk);
  }

  /** A cache that was written for this line passes for fresh although the writer would now write something else. */
  ghost predicate Stale(line: string, env: Environment, disk: Disk, disk': Disk, time: int) {
    var written, now := Write(line, env, disk), Write(line, env, disk');
    && Later(disk, disk', time) && ShortNotes(written.notes)
    && Judge(Some(line), true, Some((TextOf(written.notes), time)), disk') == Fresh
    && !(now.code == 0 && now.script[..|now.script| - 1] <= written.script)
  }

  /** For a key line the checker can be wrong if and only if there is a space in the name of its file. */
  lemma StaleJustWhenSpaced(line: string, dirs: seq<string>, languages: string, time: int)
    requires Absolute(dirs) && dirs != [] && line != "" && IsTrimmed(line) && |line| < CHECKER_LINE
    requires '\n' !in line && RequestOf(line).Complete()
    requires ShortNotes(NotesOf(PathsOf(dirs, Underscored(RequestOf(line).file)), map[]))
    ensures (exists env: Environment, disk: Disk, disk': Disk ::
               env.dirs == dirs && env.languages == languages && Stale(line, env, disk, disk', time))
            <==> ' ' in RequestOf(line).file
  {
    hide Lines, ShortNotes, Write, RequestOf, NotesOf, Absolute, Stale;
    if ' ' in RequestOf(line).file {
      var env, disk := StaleWhenSpaced(line, dirs, languages, time);
      SameEnd(line, env, map[], disk, time);
    } else if env: Environment, disk: Disk, disk': Disk :|
        env.dirs == dirs && env.languages == languages && Stale(line, env, disk, disk', time) {
      StaleMeans(line, env, disk, disk', time);
      OneLine(line, CHECKER_LINE);
      FreshMeansUnchanged(line, line, env, disk, disk', time);
    }
  }

  lemma StaleMeans(line: string, env: Environment, disk: Disk, disk': Disk, time: int)
    requires Stale(line, env, disk, disk', time)
    ensures var written, now := Write(line, env, disk), Write(line, env, disk');
      && Later(disk, disk', time) && ShortNotes(written.notes)
      && Judge(Some(line), true, Some((TextOf(written.notes), time)), disk') == Fresh
      && !(now.code == 0 && now.script[..|now.script| - 1] <= written.script)
  {
    hide WriteAll, UpToDate, Lines, ChopAll, Later, TextOf;
  }

  /** The last line of the script depends on the languages only. */
  lemma SameEnd(line: string, env: Environment, disk: Disk, disk': Disk, time: int)
    requires var written, now := Write(line, env, disk), Write(line, env, disk');
      && Later(disk, disk', time) && ShortNotes(written.notes) && written.code == 0 == now.code
      && Judge(Some(line), true, Some((TextOf(written.notes), time)), disk') == Fresh
      && |written.script| == |now.script| && written.script != now.script
    ensures Stale(line, env, disk, disk', time)
  {
    hide WriteAll, UpToDate, Lines, ChopAll, Later, TextOf;
    var a, b := Write(line, env, disk).script, Write(line, env, disk').script;
    assert a[|a| - 1] == b[|b| - 1] == Assignment("klocale_languages", env.languages);
    assert a == a[..|a| - 1] + [a[|a| - 1]] && b == b[..|b| - 1] + [b[|b| - 1]];
  }

  lemma ScriptsDiffer(line: string, env: Environment, disk: Disk)
    requires line != "" && IsTrimmed(line) && |line| < CHECKER_LINE && '\n' !in line && RequestOf(line).Complete()
    requires env.dirs != [] && env.dirs[0] + CONFIG_DIR + RequestOf(line).file in disk
    requires forall found :: env.parse(found) == OneValue(RequestOf(line), found)
    ensures Write(line, env, disk).code == 0 && |Write(line, env, disk).script| == |Write(line, env, map[]).script|
    ensures Write(line, env, disk).script != Write(line, env, map[]).script
  {
    hide Lines, WriteAll, RequestOf, ScriptOf, Record;
    OneLine(line, WRITER_LINE);
    WriteOne(line, env, map[]);
    WriteOne(line, env, disk);
    OtherValue(line, env, disk);
    assert Write(line, env, disk).script[2] == ScriptOf(line, env, disk)[1];
    assert Write(line, env, map[]).script[2] == ScriptOf(line, env, map[])[1];
  }

  lemma NothingBefore(disk: Disk, time: int)
    ensures Later(map[], disk, time)
  {
  }

  /** Settings with one value, which is another one once the first of the files is there. */
  function OneValue(r: Request, found: seq<Option<string>>): Settings {
    map[r.GroupName() := [(r.key, if found != [] && found[0].Some? then r.def + "x" else r.def)]]
  }

  lemma OtherValue(line: string, env: Environment, disk: Disk)
    requires env.dirs != [] && env.dirs[0] + CONFIG_DIR + RequestOf(line).file in disk
    requires forall found :: env.parse(found) == OneValue(RequestOf(line), found)
    ensures |ScriptOf(line, env, disk)| == |ScriptOf(line, env, map[])| == 2
    ensures ScriptOf(line, env, disk)[1] != ScriptOf(line, env, map[])[1]
  {
    hide RequestOf, Variable;
    var r := RequestOf(line);
    OneAnswer(r, r.def);
    OneAnswer(r, r.def + "x");
    assert SettingsOf(env, map[], r.file) == map[r.GroupName() := [(r.key, r.def)]];
    assert SettingsOf(env, disk, r.file) == map[r.GroupName() := [(r.key, r.def + "x")]];
    assert |r.def + "x"| == |r.def| + 1;
  }

  lemma OneAnswer(r: Request, value: string)
    ensures Answer(r, map[r.GroupName() := [(r.key, value)]])
         == [Assignment(Variable(r.file, if r.WholeGroup() then r.GroupName() else r.group, r.key), value)]
  {
    hide Variable;
  }

  lemma StaysFresh(line: string, env: Environment, disk: Disk, time: int)
    requires Absolute(env.dirs) && env.dirs != [] && line != "" && IsTrimmed(line) && |line| < CHECKER_LINE
    requires '\n' !in line
    requires var r := RequestOf(line); r.Complete() && ' ' in r.file
    requires ShortNotes(NotesOf(PathsOf(env.dirs, Underscored(RequestOf(line).file)), map[]))
    requires disk.Keys == {env.dirs[0] + CONFIG_DIR + RequestOf(line).file}
    requires forall found :: env.parse(found) == OneValue(RequestOf(line), found)
    ensures Write(line, env, map[]).code == 0 && ShortNotes(Write(line, env, map[]).notes)
    ensures Judge(Some(line), true, Some((TextOf(Write(line, env, map[]).notes), time)), disk) == Fresh
  {
    hide Lines, TextOf, UpToDate, AllHold, WriteAll, RequestOf, NotesOf, NotesFor, Record, ScriptOf, ShortNotes, Absolute;
    OneLine(line, CHECKER_LINE);
    OneLine(line, WRITER_LINE);
    WriteOne(line, env, map[]);
    RecordOfSpaced(line, env);
    NotedElsewhere(env.dirs, RequestOf(line).file, disk, time);
    FreshWhenNotesHold(line, env, disk, time);
    assert Write(line, env, map[]).notes == Record(line, env, map[]);
    NotesReadBack(line, env, map[]);
  }

  lemma RecordOfSpaced(line: string, env: Environment)
    requires |line| < CHECKER_LINE && forall found :: env.parse(found) == OneValue(RequestOf(line), found)
    requires ShortNotes(NotesOf(PathsOf(env.dirs, Underscored(RequestOf(line).file)), map[]))
    ensures NotesFor(line, env, map[]) == NotesOf(PathsOf(env.dirs, Underscored(RequestOf(line).file)), map[])
    ensures ShortNotes(Record(line, env, map[]))
  {
    hide RequestOf, NotesOf, PathsOf, Variable;
    var r := RequestOf(line);
    OneAnswer(r, r.def);
    OneAnswer(r, r.def + "x");
  }

  lemma OneLine(line: string, max: nat)
    requires line != "" && '\n' !in line && |line| < max
    ensures Lines(line, max) == [line] && Chop(line) == line && ChopAll([line]) == [line]
  {
    LengthIs(line, max, |line|);
    assert line[..|line|] == line && line[|line|..] == "";
  }

  lemma WriteOne(line: string, env: Environment, disk: Disk)
    requires line != "" && IsTrimmed(line) && RequestOf(line).Complete()
    ensures WriteAll([line], env, disk) == Written(0, ScriptOf(line, env, disk), Record(line, env, disk))
  {
    assert [line][1..] == [];
  }

  /** The notes name the file under a name that is not its own. */
  lemma NotedElsewhere(dirs: seq<string>, file: string, disk: Disk, time: int)
    requires dirs != [] && ' ' in file && disk.Keys == {dirs[0] + CONFIG_DIR + file}
    ensures AllHold(NotesOf(PathsOf(dirs, Underscored(file)), map[]), time, disk)
  {
    var paths, path := PathsOf(dirs, Underscored(file)), dirs[0] + CONFIG_DIR + file;
    forall i | 0 <= i < |paths| ensures paths[i] !in disk && ("!" + paths[i])[1..] == paths[i] {
      assert paths[i][|paths[i]| - |file|..] == Underscored(file);
      assert path[|path| - |file|..] == file;
    }
  }

  lemma FreshWhenNotesHold(line: string, env: Environment, disk: Disk, time: int)
    requires Absolute(env.dirs) && AllHold(NotesFor(line, env, map[]), time, disk)
    ensures UpToDate([line], Record(line, env, map[]), time, disk)
  {
    hide Record, NotesFor, AllHold;
    var record := Record(line, env, map[]);
    StartsWithLine(line, [], env, map[]);
    assert record + [] == record;
    OwnNotes(line, [], env, map[], time, disk);
    assert [line][1..] == [];
  }

  // ---- quoting ----

  function Quoted(entry: string): string { "'" + entry + "'" }

  /** A key line with every entry in quotes. */
  function QuotedLine(r: Request): string {
    Quoted(r.file) + " " + Quoted(r.group) + " " + Quoted(r.key) + " " + Quoted(r.def)
  }

  lemma QuotedEntry(entry: string, rest: string)
    requires '\'' !in entry && (rest == "" || !Space(rest[|rest| - 1]))
    ensures FirstEntry(Quoted(entry) + rest) == (entry, rest) && FirstEntry(" " + (Quoted(entry) + rest)) == (entry, rest)
  {
    var l := Quoted(entry) + rest;
    SpaceInFront(l);
    hide Trimmed;
    assert l[1..][|entry|] == '\'' && l[1..][..|entry|] == entry;
    assert forall j :: 0 <= j < |entry| ==> l[1..][j] == entry[j];
    IndexIs(l[1..], '\'', |entry|);
    assert l[1..|entry| + 1] == entry && l[|entry| + 2..] == rest;
  }

  lemma SpaceInFront(l: string)
    requires IsTrimmed(l)
    ensures Trimmed(l) == l == Trimmed(" " + l)
  {
    assert (" " + l)[1..] == l;
  }

  /** Entries in quotes may be empty and may contain spaces: they come out as they went in, unless they contain a quote
      themselves. */
  lemma QuotedRoundTrip(r: Request)
    requires '\'' !in r.file && '\'' !in r.group && '\'' !in r.key && '\'' !in r.def
    ensures RequestOf(QuotedLine(r)) == r
  {
    hide FirstEntry, Quoted;
    var d := Quoted(r.def);
    var c := Quoted(r.key) + (" " + d);
    var b := Quoted(r.group) + (" " + c);
    EndsWithQuote(r.def, d);
    EndsWithQuote(r.def, " " + d);
    EndsWithQuote(r.def, " " + c);
    EndsWithQuote(r.def, " " + b);
    QuotedEntry(r.file, " " + b);
    QuotedEntry(r.group, " " + c);
    QuotedEntry(r.key, " " + d);
    QuotedEntry(r.def, "");
    assert QuotedLine(r) == Quoted(r.file) + (" " + b);
    assert Quoted(r.def) + "" == d;
  }

  lemma EndsWithQuote(entry: string, s: string)
    requires |s| >= |Quoted(entry)| && s[|s| - |Quoted(entry)|..] == Quoted(entry)
    ensures s != "" && !Space(s[|s| - 1])
  {
    assert s[|s| - 1] == s[|s| - |Quoted(entry)|..][|Quoted(entry)| - 1];
  }
}
