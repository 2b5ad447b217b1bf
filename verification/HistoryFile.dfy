/**
 The clients that walk the history from the top: saving and loading it, and the lists handed out
 over D-Bus. A stored record stands for an item's serialised content.
 */
module HistoryFile {
  import opened RingSpec
  import opened ClipboardHistory

  datatype Record = Record(uuid: Uuid, text: string)

  ghost function RecordOf(x: HistoryItem): Record { Record(x.uuid, x.text) }

  ghost function Records(s: seq<HistoryItem>): (r: seq<Record>)
    ensures |r| == |s| && forall i :: 0 <= i < |s| ==> r[i] == RecordOf(s[i])
  {
    seq(|s|, i requires 0 <= i < |s| => RecordOf(s[i]))
  }

  ghost function Texts(s: seq<HistoryItem>): (r: seq<string>)
    ensures |r| == |s| && forall i :: 0 <= i < |s| ==> r[i] == s[i].text
  {
    seq(|s|, i requires 0 <= i < |s| => s[i].text)
  }

  ghost predicate Distinct(s: seq<Record>) {
    forall i, j :: 0 <= i < j < |s| ==> s[i].uuid != s[j].uuid
  }

  function Reversed<T>(s: seq<T>): (r: seq<T>)
    ensures |r| == |s| && forall i :: 0 <= i < |s| ==> r[i] == s[|s| - 1 - i]
  {
    if s == [] then [] else Reversed(s[1..]) + [s[0]]
  }

  /** What inserting one record into the stored history does. */
  ghost function Pushed(s: seq<Record>, x: Record, limit: nat): seq<Record> {
    if exists i :: 0 <= i < |s| && s[i].uuid == x.uuid then s else Newest([x] + s, limit)
  }

  /** The history after inserting the records of xs one by one, oldest first. */
  ghost function Loaded(xs: seq<Record>, limit: nat): seq<Record> {
    if xs == [] then [] else Pushed(Loaded(xs[..|xs| - 1], limit), xs[|xs| - 1], limit)
  }

  method SaveHistory(h: History, empty: bool) returns (stream: seq<Record>)
    requires h.Valid()
    ensures stream == if empty then [] else Records(h.ring)
  {
    stream := [];
    if !empty {
      var item := h.top;
      if item != null {
        ghost var i := 0;
        while true
          invariant 0 <= i < |h.ring| && item == h.ring[i]
          invariant stream == Records(h.ring[..i])
          decreases |h.ring| - i
        {
          h.Neighbours(i);
          stream := stream + [Record(item.uuid, item.text)];
          assert h.ring[..i + 1] == h.ring[..i] + [item];
          item := h.Find(item.nextUuid);
          i := i + 1;
          if item == h.top {
            FirstAgain(h, After(i - 1, |h.ring|));
            assert h.ring[..i] == h.ring;
            break;
          }
        }
      }
    }
  }

  /** The top appears at position 0 only. */
  lemma FirstAgain(h: History, p: nat)
    requires h.Linked() && p < |h.ring| && h.ring[p] == h.top
    ensures p == 0
  {
    assert Position(h.ring, h.ring[p].uuid) == p && Position(h.ring, h.ring[0].uuid) == 0;
  }

  method LoadHistory(h: History, stream: seq<Record>)
    requires h.Valid()
    modifies h
    ensures h.Valid() && h.maxSize == old(h.maxSize)
    ensures Records(h.ring) == Loaded(Reversed(stream), h.maxSize)
  {
    var reverseList := ReadItems(stream);
    h.SlotClear();
    InsertAll(h, reverseList);
  }

  /** The list needs to be reversed: it was saved youngest first and is to be inserted oldest first. */
  method ReadItems(stream: seq<Record>) returns (reverseList: seq<HistoryItem>)
    ensures fresh(set x | x in reverseList)
    ensures Records(reverseList) == Reversed(stream)
  {
    reverseList := [];
    var i := 0;
    while i < |stream|
      invariant 0 <= i <= |stream|
      invariant fresh(set x | x in reverseList)
      invariant Records(reverseList) == Reversed(stream[..i])
    {
      var item := new HistoryItem(stream[i].uuid, stream[i].text);
      ReversedSnoc(stream[..i], stream[i]);
      assert stream[..i + 1] == stream[..i] + [stream[i]];
      reverseList := [item] + reverseList;
      i := i + 1;
    }
    assert stream[..|stream|] == stream;
  }

  method InsertAll(h: History, list: seq<HistoryItem>)
    requires h.Valid() && h.ring == []
    modifies h, list
    ensures h.Valid() && h.maxSize == old(h.maxSize)
    ensures Records(h.ring) == Loaded(Records(list), h.maxSize)
  {
    var i := 0;
    while i < |list|
      invariant 0 <= i <= |list|
      invariant h.Valid() && h.maxSize == old(h.maxSize)
      invariant forall k :: 0 <= k < |h.ring| ==> h.ring[k] in list
      invariant Records(h.ring) == Loaded(Records(list[..i]), h.maxSize)
    {
      LoadedSnoc(list, i, h.maxSize);
      InsertRecord(h, list[i]);
      i := i + 1;
    }
    assert list[..i] == list;
  }

  lemma LoadedSnoc(list: seq<HistoryItem>, i: nat, limit: nat)
    requires i < |list|
    ensures Loaded(Records(list[..i + 1]), limit) == Pushed(Loaded(Records(list[..i]), limit), RecordOf(list[i]), limit)
  {
    var r := Records(list[..i + 1]);
    assert r[..i] == Records(list[..i]) && r[i] == RecordOf(list[i]);
  }

  method InsertRecord(h: History, item: HistoryItem)
    requires h.Valid()
    modifies h, h.ring, item
    ensures h.Valid() && h.maxSize == old(h.maxSize)
    ensures forall k :: 0 <= k < |h.ring| ==> h.ring[k] == item || h.ring[k] in old(h.ring)
    ensures Records(h.ring) == Pushed(Records(old(h.ring)), RecordOf(item), h.maxSize)
  {
    TableCovered(h.items, h.ring);
    PushedRecord(h.ring, item, h.maxSize);
    h.ForceInsert(item);
  }

  lemma PushedRecord(s: seq<HistoryItem>, x: HistoryItem, limit: nat)
    ensures x.uuid in Uuids(s) ==> Pushed(Records(s), RecordOf(x), limit) == Records(s)
    ensures x.uuid !in Uuids(s) ==> Pushed(Records(s), RecordOf(x), limit) == Records(Newest([x] + s, limit))
  {
    if x.uuid in Uuids(s) {
      var i :| 0 <= i < |s| && s[i].uuid == x.uuid;
      assert Records(s)[i].uuid == x.uuid;
    } else {
      assert forall i :: 0 <= i < |s| ==> Records(s)[i].uuid == s[i].uuid;
      assert [RecordOf(x)] + Records(s) == Records([x] + s);
    }
  }

  lemma {:induction false} ReversedSnoc<T>(s: seq<T>, x: T)
    ensures Reversed(s + [x]) == [x] + Reversed(s)
  {
    assert Reversed(s + [x]) == [x] + Reversed(s);
  }

  /** Inserting distinct records oldest first gives the newest of them, youngest first. */
  lemma {:induction false} LoadedDistinct(s: seq<Record>, limit: nat)
    requires Distinct(s) && 1 <= limit
    ensures Loaded(Reversed(s), limit) == Newest(s, limit)
  {
    if s != [] {
      var rest := s[1..];
      LoadedDistinct(rest, limit);
      var r := Reversed(s);
      assert r[..|r| - 1] == Reversed(rest) && r[|r| - 1] == s[0];
      PushedOnNewest(s, limit);
    }
  }

  lemma PushedOnNewest(s: seq<Record>, limit: nat)
    requires Distinct(s) && s != [] && 1 <= limit
    ensures Pushed(Newest(s[1..], limit), s[0], limit) == Newest(s, limit)
  {
    var kept := Newest(s[1..], limit);
    forall i | 0 <= i < |kept| ensures kept[i].uuid != s[0].uuid {
      assert kept[i] == s[i + 1];
    }
    assert Newest([s[0]] + kept, limit) == Newest(s, limit);
  }

  /** A saved history comes back in the same order, cut to the size limit of the loading history. */
  method SaveThenLoad(source: History, target: History)
    requires source.Valid() && target.Valid() && source != target
    modifies target
    ensures target.Valid() && target.maxSize == old(target.maxSize)
    ensures Records(target.ring) == Newest(Records(source.ring), target.maxSize)
  {
    var stream := SaveHistory(source, false);
    LoadHistory(target, stream);
    PairwiseDistinct(source.ring);
    LoadedDistinct(stream, target.maxSize);
  }

  method GetClipboardHistoryMenu(h: History) returns (menu: seq<string>)
    requires h.Valid()
    ensures menu == Texts(h.ring)
  {
    menu := [];
    var item := h.top;
    if item != null {
      ghost var i := 0;
      while true
        invariant 0 <= i < |h.ring| && item == h.ring[i]
        invariant menu == Texts(h.ring[..i])
        decreases |h.ring| - i
      {
        h.Neighbours(i);
        menu := menu + [item.text];
        assert h.ring[..i + 1] == h.ring[..i] + [item];
        item := h.Find(item.nextUuid);
        i := i + 1;
        if item == h.top {
          FirstAgain(h, After(i - 1, |h.ring|));
          assert h.ring[..i] == h.ring;
          break;
        }
      }
    }
  }

  method GetClipboardHistoryItem(h: History, index: int) returns (text: string)
    requires h.Valid()
    ensures text == if 0 <= index < |h.ring| then Texts(h.ring)[index] else ""
  {
    var item := h.top;
    var i := index;
    if item != null {
      ghost var k := 0;
      while true
        invariant 0 <= k < |h.ring| && item == h.ring[k]
        invariant i == index - k && !(0 <= index < k)
        decreases |h.ring| - k
      {
        h.Neighbours(k);
        i := i - 1;
        if i + 1 == 0 {
          return item.text;
        }
        item := h.Find(item.nextUuid);
        k := k + 1;
        if item == h.top {
          FirstAgain(h, After(k - 1, |h.ring|));
          break;
        }
      }
    }
    return "";
  }
}
