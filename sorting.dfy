/**
 * The stable comparison sort behind `Array.prototype.sort` with a comparator,
 * as used by the review list and the best-seller page. A comparator `cmp` is
 * represented by `le(a, b) == (cmp(a, b) <= 0)`: "a may stay before b".
 * Insertion keeps an element ahead of the elements it ties with that came
 * after it in the input, so the sort is stable, as ECMAScript requires
 * (`SortStable`).
 */
module Sorting {

  /** `le` is total and transitive: a comparator the sort can rely on. */
  ghost predicate TotalPreorder<T(!new)>(le: (T, T) -> bool) {
    && (forall a, b :: le(a, b) || le(b, a))
    && (forall a, b, c :: le(a, b) && le(b, c) ==> le(a, c))
  }

  predicate SortedBy<T>(s: seq<T>, le: (T, T) -> bool) {
    forall i, j | 0 <= i < j < |s| :: le(s[i], s[j])
  }

  /** Puts `x` in front of the first element it may precede. */
  function Insert<T>(x: T, s: seq<T>, le: (T, T) -> bool): (r: seq<T>)
    ensures multiset(r) == multiset(s) + multiset{x}
  {
    if s == [] then [x]
    else if le(x, s[0]) then [x] + s
    else
      assert s == [s[0]] + s[1..];
      [s[0]] + Insert(x, s[1..], le)
  }

  function Sort<T>(s: seq<T>, le: (T, T) -> bool): (r: seq<T>)
    ensures multiset(r) == multiset(s)
    ensures |r| == |s|
  {
    if s == [] then []
    else
      assert s == [s[0]] + s[1..];
      Insert(s[0], Sort(s[1..], le), le)
  }

  lemma {:induction false} InsertSorted<T(!new)>(x: T, s: seq<T>, le: (T, T) -> bool)
    requires TotalPreorder(le) && SortedBy(s, le)
    ensures SortedBy(Insert(x, s, le), le)
  {
    if s == [] {
    } else if le(x, s[0]) {
      forall k | 0 <= k < |s| ensures le(x, s[k]) {
        if k > 0 {
          assert le(s[0], s[k]);
        }
      }
      ConsSorted(x, s, le);
    } else {
      var t := s[1..];
      TailSorted(s, le);
      InsertSorted(x, t, le);
      var rest := Insert(x, t, le);
      assert le(s[0], x);
      forall k | 0 <= k < |rest| ensures le(s[0], rest[k]) {
        var y := rest[k];
        assert y in multiset(rest);
        if y != x {
          assert y in multiset(t);
          var m :| 0 <= m < |t| && t[m] == y;
          assert s[m + 1] == y;
        }
      }
      ConsSorted(s[0], rest, le);
    }
  }

  /** An element that may precede every element of a sorted list may go in front of it. */
  lemma ConsSorted<T>(x: T, s: seq<T>, le: (T, T) -> bool)
    requires SortedBy(s, le)
    requires forall k | 0 <= k < |s| :: le(x, s[k])
    ensures SortedBy([x] + s, le)
  {
    var r := [x] + s;
    forall i, j | 0 <= i < j < |r| ensures le(r[i], r[j]) {
      if i == 0 {
        assert r[j] == s[j - 1];
      } else {
        assert r[i] == s[i - 1] && r[j] == s[j - 1];
      }
    }
  }

  lemma TailSorted<T>(s: seq<T>, le: (T, T) -> bool)
    requires s != [] && SortedBy(s, le)
    ensures SortedBy(s[1..], le)
  {
    var t := s[1..];
    forall i, j | 0 <= i < j < |t| ensures le(t[i], t[j]) {
      assert t[i] == s[i + 1] && t[j] == s[j + 1];
    }
  }

  /** Under a total preorder the result is ordered (and, by `Sort`'s contract, a permutation). */
  lemma {:induction false} SortSorted<T(!new)>(s: seq<T>, le: (T, T) -> bool)
    requires TotalPreorder(le)
    ensures SortedBy(Sort(s, le), le)
  {
    if s != [] {
      SortSorted(s[1..], le);
      InsertSorted(s[0], Sort(s[1..], le), le);
    }
  }

  /** An input that is already in order comes back unchanged. */
  lemma {:induction false} SortOfSorted<T(!new)>(s: seq<T>, le: (T, T) -> bool)
    requires SortedBy(s, le)
    ensures Sort(s, le) == s
  {
    if s != [] {
      var t := s[1..];
      assert SortedBy(t, le) by {
        forall i, j | 0 <= i < j < |t| ensures le(t[i], t[j]) {
          assert t[i] == s[i + 1] && t[j] == s[j + 1];
        }
      }
      SortOfSorted(t, le);
      if t != [] {
        assert le(s[0], t[0]) by { assert t[0] == s[1]; }
      }
      assert s == [s[0]] + t;
    }
  }

  /** Neither of a and b has to come first. */
  predicate Tied<T>(le: (T, T) -> bool, a: T, b: T) {
    le(a, b) && le(b, a)
  }

  /** The elements of s that tie with z, in their order in s. */
  function TiesWith<T>(s: seq<T>, z: T, le: (T, T) -> bool): seq<T> {
    if s == [] then []
    else (if Tied(le, s[0], z) then [s[0]] else []) + TiesWith(s[1..], z, le)
  }

  /**
   * Inserting x puts it ahead of every element it ties with: the elements
   * it is moved past are all strictly smaller.
   */
  lemma {:induction false} InsertTies<T(!new)>(x: T, t: seq<T>, z: T, le: (T, T) -> bool)
    requires TotalPreorder(le)
    ensures TiesWith(Insert(x, t, le), z, le) == (if Tied(le, x, z) then [x] else []) + TiesWith(t, z, le)
  {
    if t == [] {
      TiesWithCons(x, [], z, le);
      assert [x] + [] == [x];
    } else if le(x, t[0]) {
      TiesWithCons(x, t, z, le);
    } else {
      InsertTies(x, t[1..], z, le);
      NotBothTied(x, t[0], z, le);
      InsertPast(x, t, z, le);
    }
  }

  /** The step of `InsertTies` where x moves past the head of t. */
  lemma InsertPast<T>(x: T, t: seq<T>, z: T, le: (T, T) -> bool)
    requires t != [] && !le(x, t[0])
    requires !(Tied(le, x, z) && Tied(le, t[0], z))
    requires TiesWith(Insert(x, t[1..], le), z, le) == (if Tied(le, x, z) then [x] else []) + TiesWith(t[1..], z, le)
    ensures TiesWith(Insert(x, t, le), z, le) == (if Tied(le, x, z) then [x] else []) + TiesWith(t, z, le)
  {
    assert Insert(x, t, le) == [t[0]] + Insert(x, t[1..], le);
    assert t == [t[0]] + t[1..];
    MovePastUntied(x, t[0], Insert(x, t[1..], le), t[1..], z, le);
  }

  /** Moving x past an element y that cannot tie with z alongside it keeps the ties with z in order. */
  lemma MovePastUntied<T>(x: T, y: T, r: seq<T>, rest: seq<T>, z: T, le: (T, T) -> bool)
    requires !(Tied(le, x, z) && Tied(le, y, z))
    requires TiesWith(r, z, le) == (if Tied(le, x, z) then [x] else []) + TiesWith(rest, z, le)
    ensures TiesWith([y] + r, z, le) == (if Tied(le, x, z) then [x] else []) + TiesWith([y] + rest, z, le)
  {
    var hx := if Tied(le, x, z) then [x] else [];
    var hy := if Tied(le, y, z) then [y] else [];
    calc {
      TiesWith([y] + r, z, le);
      { TiesWithCons(y, r, z, le); }
      hy + TiesWith(r, z, le);
      hy + (hx + TiesWith(rest, z, le));
      { assert hy == [] || hx == []; assert hy + hx == hx + hy; }
      hx + (hy + TiesWith(rest, z, le));
      { TiesWithCons(y, rest, z, le); }
      hx + TiesWith([y] + rest, z, le);
    }
  }

  lemma TiesWithCons<T>(a: T, s: seq<T>, z: T, le: (T, T) -> bool)
    ensures TiesWith([a] + s, z, le) == (if Tied(le, a, z) then [a] else []) + TiesWith(s, z, le)
  {
    assert ([a] + s)[0] == a;
    assert ([a] + s)[1..] == s;
  }

  /** Two elements tied with the same z are tied with each other, so x may precede y. */
  lemma NotBothTied<T(!new)>(x: T, y: T, z: T, le: (T, T) -> bool)
    requires TotalPreorder(le) && !le(x, y)
    ensures !(Tied(le, x, z) && Tied(le, y, z))
  {
  }

  /** Sorting keeps every group of tied elements in its input order: the sort is stable. */
  lemma {:induction false} SortStable<T(!new)>(s: seq<T>, z: T, le: (T, T) -> bool)
    requires TotalPreorder(le)
    ensures TiesWith(Sort(s, le), z, le) == TiesWith(s, z, le)
  {
    if s != [] {
      SortStable(s[1..], z, le);
      InsertTies(s[0], Sort(s[1..], le), z, le);
    }
  }
}
