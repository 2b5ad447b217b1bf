/** What it means to pick elements out of a list. */
module Picking {

  ghost predicate Increasing(places: seq<nat>) {
    forall i, j :: 0 <= i < j < |places| ==> places[i] < places[j]
  }

  /** r is what p picks out of s, in order. */
  ghost predicate PicksAt<T(!new)>(r: seq<T>, s: seq<T>, p: T -> bool, places: seq<nat>) {
    && |places| == |r| && Increasing(places)
    && (forall i :: 0 <= i < |r| ==> places[i] < |s| && r[i] == s[places[i]] && p(r[i]))
    && (forall k :: 0 <= k < |s| && p(s[k]) ==> k in places)
  }

  ghost predicate Picks<T(!new)>(r: seq<T>, s: seq<T>, p: T -> bool) {
    exists places: seq<nat> :: PicksAt(r, s, p, places)
  }

  lemma PicksNone<T(!new)>(p: T -> bool)
    ensures Picks([], [], p)
  {
    assert PicksAt([], [], p, []);
  }

  lemma PicksOn<T(!new)>(r: seq<T>, s: seq<T>, p: T -> bool, x: T)
    requires Picks(r, s, p)
    ensures Picks(if p(x) then r + [x] else r, s + [x], p)
  {
    hide PicksAt;
    var places: seq<nat> :| PicksAt(r, s, p, places);
    if p(x) {
      PicksNext(r, s, p, x, places);
    } else {
      PicksSkips(r, s, p, x, places);
    }
  }

  lemma PicksNext<T(!new)>(r: seq<T>, s: seq<T>, p: T -> bool, x: T, places: seq<nat>)
    requires PicksAt(r, s, p, places) && p(x)
    ensures PicksAt(r + [x], s + [x], p, places + [|s|])
  {
    var more := places + [|s|];
    forall k | 0 <= k < |s + [x]| && p((s + [x])[k]) ensures k in more {
      if k < |s| { assert p(s[k]) && k in places; } else { assert more[|places|] == k; }
    }
  }

  lemma PicksSkips<T(!new)>(r: seq<T>, s: seq<T>, p: T -> bool, x: T, places: seq<nat>)
    requires PicksAt(r, s, p, places) && !p(x)
    ensures PicksAt(r, s + [x], p, places)
  {
    forall k | 0 <= k < |s + [x]| && p((s + [x])[k]) ensures k in places {
      assert k < |s| && p(s[k]);
    }
  }

  lemma PicksSame<T(!new)>(r: seq<T>, s: seq<T>, p: T -> bool, q: T -> bool)
    requires Picks(r, s, p) && forall k :: 0 <= k < |s| ==> p(s[k]) == q(s[k])
    ensures Picks(r, s, q)
  {
    var places: seq<nat> :| PicksAt(r, s, p, places);
    assert PicksAt(r, s, q, places);
  }

  lemma PickedFrom<T(!new)>(r: seq<T>, s: seq<T>, p: T -> bool)
    requires Picks(r, s, p)
    ensures forall x :: x in r <==> x in s && p(x)
  {
    var places: seq<nat> :| PicksAt(r, s, p, places);
    forall x | x in s && p(x) ensures x in r {
      var k :| 0 <= k < |s| && s[k] == x;
      assert k in places;
      var i :| 0 <= i < |places| && places[i] == k;
      assert r[i] == x;
    }
  }

  /** Picking from what has been picked. */
  lemma PicksTwice<T(!new)>(a: seq<T>, b: seq<T>, s: seq<T>, p: T -> bool, q: T -> bool, both: T -> bool)
    requires Picks(b, s, p) && Picks(a, b, q) && forall x :: both(x) <==> p(x) && q(x)
    ensures Picks(a, s, both)
  {
    hide PicksAt;
    var inner: seq<nat> :| PicksAt(b, s, p, inner);
    var outer: seq<nat> :| PicksAt(a, b, q, outer);
    PicksThrough(a, b, s, p, q, both, inner, outer);
  }

  lemma PicksThrough<T(!new)>(a: seq<T>, b: seq<T>, s: seq<T>, p: T -> bool, q: T -> bool, both: T -> bool,
                              inner: seq<nat>, outer: seq<nat>)
    requires PicksAt(b, s, p, inner) && PicksAt(a, b, q, outer) && forall x :: both(x) <==> p(x) && q(x)
    ensures Picks(a, s, both)
  {
    var places: seq<nat> := seq(|outer|, i requires 0 <= i < |outer| => inner[outer[i]]);
    forall k | 0 <= k < |s| && both(s[k]) ensures k in places {
      assert k in inner;
      var j :| 0 <= j < |inner| && inner[j] == k;
      assert q(b[j]) && j in outer;
      var i :| 0 <= i < |outer| && outer[i] == j;
      assert places[i] == k;
    }
    forall i | 0 <= i < |a| ensures places[i] < |s| && a[i] == s[places[i]] && both(a[i]) {
      assert a[i] == b[outer[i]] == s[inner[outer[i]]];
    }
    assert PicksAt(a, s, both, places);
  }

  lemma PicksHead<T(!new)>(r: seq<T>, s: seq<T>, p: T -> bool)
    requires Picks(r, s, p) && s != [] && p(s[0])
    ensures r != [] && r[0] == s[0]
  {
    hide PicksAt;
    var places: seq<nat> :| PicksAt(r, s, p, places);
    PicksAtHead(r, s, p, places);
  }

  lemma PicksAtHead<T(!new)>(r: seq<T>, s: seq<T>, p: T -> bool, places: seq<nat>)
    requires PicksAt(r, s, p, places) && s != [] && p(s[0])
    ensures r != [] && r[0] == s[0]
  {
    hide Increasing;
    assert 0 in places;
    ZeroFirst(places);
  }

  lemma ZeroFirst(places: seq<nat>)
    requires Increasing(places) && 0 in places
    ensures places[0] == 0
  {
    var i :| 0 <= i < |places| && places[i] == 0;
    assert places[0] <= places[i];
  }
}
