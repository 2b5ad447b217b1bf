/** Strings of characters: lower case, and their order. */
module Strings {

  function Lower(s: string): (r: string)
    ensures |r| == |s|
  {
    seq(|s|, i requires 0 <= i < |s| =>
      if 'A' <= s[i] <= 'Z' then ((s[i] as int) + 32) as char else s[i])
  }

  /** The order of strings by their characters. */
  predicate StringLess(a: string, b: string) {
    b != "" && (a == "" || a[0] < b[0] || (a[0] == b[0] && StringLess(a[1..], b[1..])))
  }

  lemma {:induction false} StringLessTotal(a: string, b: string)
    ensures !StringLess(a, a) && !(StringLess(a, b) && StringLess(b, a))
    ensures StringLess(a, b) || StringLess(b, a) || a == b
  {
    if a != "" {
      StringLessTotal(a[1..], a[1..]);
      if b != "" {
        StringLessTotal(a[1..], b[1..]);
        if a[0] == b[0] && a[1..] == b[1..] { assert a == [a[0]] + a[1..] && b == [b[0]] + b[1..]; }
      }
    }
  }

  /** The shorter of two strings that agree as far as it goes, or the one with the smaller character where they first
      differ. */
  ghost predicate Precedes(a: string, b: string) {
    || (|a| < |b| && a == b[..|a|])
    || (exists k :: 0 <= k < |a| && k < |b| && a[k] < b[k] && a[..k] == b[..k])
  }

  lemma {:induction false} StringLessIs(a: string, b: string)
    ensures StringLess(a, b) <==> Precedes(a, b)
  {
    if a != "" && b != "" {
      if a[0] == b[0] {
        StringLessIs(a[1..], b[1..]);
        PrecedesBehind(a, b);
      } else if a[0] < b[0] {
        assert a[..0] == b[..0];
      } else {
        forall k | 0 <= k < |a| && k < |b| && a[k] < b[k] ensures a[..k] != b[..k] {
          assert k > 0;
          assert a[..k][0] == a[0] && b[..k][0] == b[0];
        }
      }
    }
  }

  lemma PrecedesBehind(a: string, b: string)
    requires a != "" && b != "" && a[0] == b[0]
    ensures Precedes(a, b) <==> Precedes(a[1..], b[1..])
  {
    var c, d := a[1..], b[1..];
    assert |a| <= |b| ==> b[..|a|] == [b[0]] + d[..|c|];
    assert a == [a[0]] + c;
    if k :| 0 <= k < |a| && k < |b| && a[k] < b[k] && a[..k] == b[..k] {
      assert k > 0 && c[k - 1] < d[k - 1] && c[..k - 1] == a[..k][1..] && d[..k - 1] == b[..k][1..];
    }
    if k :| 0 <= k < |c| && k < |d| && c[k] < d[k] && c[..k] == d[..k] {
      assert a[..k + 1] == [a[0]] + c[..k] && b[..k + 1] == [b[0]] + d[..k] && a[k + 1] < b[k + 1];
    }
  }

  /** Lower case leaves no capital letter, and takes each one to the letter 32 places on. */
  lemma LowerIs(s: string, r: string)
    ensures r == Lower(s) <==> |r| == |s| && forall i :: 0 <= i < |s| ==>
      if 'A' <= s[i] && s[i] <= 'Z' then r[i] as int == s[i] as int + 32 else r[i] == s[i]
  {
    assert forall i :: 0 <= i < |s| && 'A' <= s[i] <= 'Z' ==> Lower(s)[i] as int == s[i] as int + 32;
    if |r| == |s| && forall i :: 0 <= i < |s| ==> if 'A' <= s[i] && s[i] <= 'Z' then r[i] as int == s[i] as int + 32 else r[i] == s[i] {
      forall i | 0 <= i < |s| ensures r[i] == Lower(s)[i] {
        assert r[i] as int == Lower(s)[i] as int;
      }
    }
  }

  lemma {:induction false} StringLessTransitive(a: string, b: string, c: string)
    requires StringLess(a, b) && StringLess(b, c)
    ensures StringLess(a, c)
  {
    if a != "" && a[0] == b[0] && b[0] == c[0] { StringLessTransitive(a[1..], b[1..], c[1..]); }
  }

  // ---- white space ----

  predicate Space(c: char) { c in " \t\n\r" || c == 11 as char || c == 12 as char }

  /** Without white space at either end. */
  function Trimmed(s: string): (r: string)
    ensures IsTrimmed(r) && |r| <= |s| && (r == s <==> IsTrimmed(s))
  {
    if s == "" then s
    else if Space(s[0]) then Trimmed(s[1..])
    else if Space(s[|s| - 1]) then Trimmed(s[..|s| - 1])
    else s
  }

  /** A blank, or one of the control characters from the tabulator to the carriage return. */
  ghost predicate White(c: char) { c as int == 32 || 9 <= c as int <= 13 }

  /** What is left at the places i..j when all white space has been taken off both ends. */
  ghost predicate TrimmedTo(s: string, i: nat, j: nat) {
    && i <= j <= |s|
    && (forall k :: 0 <= k < i || j <= k < |s| ==> White(s[k]))
    && (i < j ==> !White(s[i]) && !White(s[j - 1]))
  }

  /** Trimming takes white space off both ends, and all of it. */
  lemma {:induction false} TrimmedIs(s: string) returns (i: nat, j: nat)
    ensures TrimmedTo(s, i, j) && Trimmed(s) == s[i..j]
  {
    hide TrimmedTo;
    if s == "" {
      i, j := 0, 0;
      AllTrimmed(s);
    } else if Space(s[0]) {
      i, j := TrimmedIs(s[1..]);
      TrimmedFront(s, i, j);
      i, j := i + 1, j + 1;
    } else if Space(s[|s| - 1]) {
      i, j := TrimmedIs(s[..|s| - 1]);
      TrimmedBack(s, i, j);
    } else {
      i, j := 0, |s|;
      AllTrimmed(s);
    }
  }

  lemma AllTrimmed(s: string)
    requires IsTrimmed(s)
    ensures TrimmedTo(s, 0, |s|)
  {
  }

  lemma TrimmedFront(s: string, i: nat, j: nat)
    requires s != "" && Space(s[0]) && TrimmedTo(s[1..], i, j)
    ensures TrimmedTo(s, i + 1, j + 1) && s[1..][i..j] == s[i + 1..j + 1]
  {
    assert forall k :: 0 < k < |s| ==> s[k] == s[1..][k - 1];
  }

  lemma TrimmedBack(s: string, i: nat, j: nat)
    requires s != "" && Space(s[|s| - 1]) && TrimmedTo(s[..|s| - 1], i, j)
    ensures TrimmedTo(s, i, j) && s[..|s| - 1][i..j] == s[i..j]
  {
    var t := s[..|s| - 1];
    assert forall k :: 0 <= k < |t| ==> s[k] == t[k];
  }

  predicate IsTrimmed(s: string) { s == "" || (!Space(s[0]) && !Space(s[|s| - 1])) }

  /** The same string with underscores for spaces. */
  function Underscored(s: string): (r: string)
    ensures |r| == |s| && (r == s <==> ' ' !in s)
    ensures forall i :: 0 <= i < |s| ==> r[i] == if s[i] == ' ' then '_' else s[i]
  {
    if s == "" then "" else [if s[0] == ' ' then '_' else s[0]] + Underscored(s[1..])
  }

  lemma {:induction false} TrimmedPart(s: string, c: char)
    requires c !in s
    ensures c !in Trimmed(s)
  {
    if s != "" {
      if Space(s[0]) { TrimmedPart(s[1..], c); }
      else if Space(s[|s| - 1]) { TrimmedPart(s[..|s| - 1], c); }
    }
  }

  /** White space in front or behind makes no difference to what trimming leaves. */
  lemma {:induction false} TrimmedEnd(s: string, c: char)
    requires Space(c)
    ensures Trimmed(s + [c]) == Trimmed(s)
  {
    if s != "" && Space(s[0]) {
      assert (s + [c])[1..] == s[1..] + [c];
      TrimmedEnd(s[1..], c);
    } else if s == "" {
      assert s + [c] == [c] && [c][1..] == "";
    } else {
      assert (s + [c])[..|s|] == s;
    }
  }

  // ---- paths ----

  /** What follows the last slash. */
  function FileName(path: string): string {
    if path == [] || path[|path| - 1] == '/' then []
    else FileName(path[..|path| - 1]) + [path[|path| - 1]]
  }

  lemma {:induction false} FileNameIs(path: string)
    ensures var r := FileName(path);
      && '/' !in r && |r| <= |path| && path[|path| - |r|..] == r
      && (|r| < |path| ==> path[|path| - |r| - 1] == '/')
  {
    if path != [] && path[|path| - 1] != '/' { FileNameIs(path[..|path| - 1]); }
  }
}
