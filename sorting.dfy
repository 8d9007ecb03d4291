/**
 * A stable sort, as Python's `list.sort` (also with `reverse=True`) and
 * JavaScript's `Array.prototype.sort` provide: the result is ordered by a
 * total preorder, and elements that the order ties keep their input order.
 * Also the order a SQL `ORDER BY` imposes, where ties come out in any order.
 */
module Sorting {

  ghost predicate Total<T(!new)>(le: (T, T) -> bool) {
    forall a, b :: le(a, b) || le(b, a)
  }

  ghost predicate Transitive<T(!new)>(le: (T, T) -> bool) {
    forall a, b, c :: le(a, b) && le(b, c) ==> le(a, c)
  }

  /** `le` is total and transitive: ties are allowed. */
  ghost predicate TotalPreorder<T(!new)>(le: (T, T) -> bool) {
    Total(le) && Transitive(le)
  }

  predicate Sorted<T>(s: seq<T>, le: (T, T) -> bool) {
    forall i, j :: 0 <= i < j < |s| ==> le(s[i], s[j])
  }

  /** `a` and `b` are tied: neither sorts strictly before the other. */
  predicate Tie<T>(a: T, b: T, le: (T, T) -> bool) {
    le(a, b) && le(b, a)
  }

  /** The elements of `s` tied with `x`, in the order `s` has them. */
  function Tied<T>(s: seq<T>, x: T, le: (T, T) -> bool): seq<T> {
    if s == [] then [] else (if Tie(s[0], x, le) then [s[0]] else []) + Tied(s[1..], x, le)
  }

  /** Puts `x` before the first element it does not sort strictly after. */
  function Insert<T>(x: T, s: seq<T>, le: (T, T) -> bool): seq<T> {
    if s == [] || le(x, s[0]) then [x] + s else [s[0]] + Insert(x, s[1..], le)
  }

  /** Insertion sort; the earlier of two tied elements is inserted last, so in front. */
  function Sort<T>(s: seq<T>, le: (T, T) -> bool): seq<T> {
    if s == [] then [] else Insert(s[0], Sort(s[1..], le), le)
  }

  /** The first `n` elements, as `s[:n]` for `n >= 0`. */
  function Take<T>(s: seq<T>, n: nat): (r: seq<T>)
    ensures |r| == if n < |s| then n else |s|
    ensures r == s[..|r|]
  {
    if n < |s| then s[..n] else s
  }

  lemma {:induction false} InsertElements<T>(x: T, s: seq<T>, le: (T, T) -> bool)
    ensures multiset(Insert(x, s, le)) == multiset(s) + multiset{x}
  {
    if s == [] || le(x, s[0]) {
    } else {
      InsertElements(x, s[1..], le);
      assert s == [s[0]] + s[1..];
    }
  }

  lemma {:induction false} InsertSorted<T(!new)>(x: T, s: seq<T>, le: (T, T) -> bool)
    requires TotalPreorder(le) && Sorted(s, le)
    ensures Sorted(Insert(x, s, le), le)
  {
    if s == [] || le(x, s[0]) {
      forall j | 1 <= j < |s| + 1 ensures le(x, ([x] + s)[j]) {
        assert le(s[0], s[j - 1]);
      }
    } else {
      assert le(s[0], x);
      InsertSorted(x, s[1..], le);
      InsertElements(x, s[1..], le);
      var r := Insert(x, s[1..], le);
      forall j | 0 <= j < |r| ensures le(s[0], r[j]) {
        assert r[j] in multiset(r);
        if r[j] != x {
          assert r[j] in multiset(s[1..]);
          var k :| 0 <= k < |s[1..]| && s[1..][k] == r[j];
          assert le(s[0], s[k + 1]);
        }
      }
    }
  }

  lemma {:induction false} SortSorted<T(!new)>(s: seq<T>, le: (T, T) -> bool)
    requires TotalPreorder(le)
    ensures Sorted(Sort(s, le), le)
    ensures multiset(Sort(s, le)) == multiset(s)
  {
    if s != [] {
      SortSorted(s[1..], le);
      InsertSorted(s[0], Sort(s[1..], le), le);
      InsertElements(s[0], Sort(s[1..], le), le);
      assert s == [s[0]] + s[1..];
    }
  }

  /** Inserting `x` adds it to the elements tied with `y` exactly when `x` ties with `y`, in front. */
  lemma {:induction false} InsertTied<T(!new)>(x: T, s: seq<T>, y: T, le: (T, T) -> bool)
    requires Transitive(le)
    ensures Tied(Insert(x, s, le), y, le) == (if Tie(x, y, le) then [x] else []) + Tied(s, y, le)
  {
    if s == [] || le(x, s[0]) {
      assert ([x] + s)[1..] == s;
    } else {
      var rest := Insert(x, s[1..], le);
      InsertTied(x, s[1..], y, le);
      assert ([s[0]] + rest)[1..] == rest;
      var a := if Tie(x, y, le) then [x] else [];
      var b := if Tie(s[0], y, le) then [s[0]] else [];
      assert a == [] || b == [];
      calc {
        Tied(Insert(x, s, le), y, le);
        b + Tied(rest, y, le);
        b + (a + Tied(s[1..], y, le));
        a + (b + Tied(s[1..], y, le));
      }
    }
  }

  /** Stability: the sort keeps every run of tied elements in input order. */
  lemma {:induction false} SortStable<T(!new)>(s: seq<T>, y: T, le: (T, T) -> bool)
    requires TotalPreorder(le)
    ensures Tied(Sort(s, le), y, le) == Tied(s, y, le)
  {
    if s != [] {
      SortStable(s[1..], y, le);
      InsertTied(s[0], Sort(s[1..], le), y, le);
    }
  }

  /** Descending by an integer key: `sort(key=..., reverse=True)`. */
  function ByKeyDesc<T(!new)>(key: T -> int): (le: (T, T) -> bool)
    ensures forall a, b :: le(a, b) <==> key(a) >= key(b)
  {
    (a, b) => key(a) >= key(b)
  }

  lemma ByKeyDescTotal<T(!new)>(key: T -> int)
    ensures TotalPreorder(ByKeyDesc(key))
  {
  }
}
