/**
 * Python's ordering of strings (code point by code point, a prefix first)
 * and a stable sort by a total preorder, used for `sorted(...)` and
 * `sort_values`.
 */
module Ordering {
  import opened Seqs

  /** `a <= b` for Python strings. */
  predicate StrLe(a: string, b: string) {
    a == [] || (b != [] && (a[0] < b[0] || (a[0] == b[0] && StrLe(a[1..], b[1..]))))
  }

  lemma {:induction false} StrLeRefl(a: string)
    ensures StrLe(a, a)
  {
    if a != [] {
      StrLeRefl(a[1..]);
    }
  }

  lemma {:induction false} StrLeTotal(a: string, b: string)
    ensures StrLe(a, b) || StrLe(b, a)
  {
    if a != [] && b != [] && a[0] == b[0] {
      StrLeTotal(a[1..], b[1..]);
    }
  }

  lemma {:induction false} StrLeTrans(a: string, b: string, c: string)
    requires StrLe(a, b) && StrLe(b, c)
    ensures StrLe(a, c)
  {
    if a != [] && a[0] == b[0] && b[0] == c[0] {
      StrLeTrans(a[1..], b[1..], c[1..]);
    }
  }

  lemma {:induction false} StrLeAntisym(a: string, b: string)
    requires StrLe(a, b) && StrLe(b, a)
    ensures a == b
  {
    if a != [] {
      StrLeAntisym(a[1..], b[1..]);
      assert a == [a[0]] + a[1..] && b == [b[0]] + b[1..];
    }
  }

  /** `le` orders every pair of values and chains. */
  ghost predicate TotalPreorder<T(!new)>(le: (T, T) -> bool) {
    (forall a, b :: le(a, b) || le(b, a)) &&
    (forall a, b, c :: le(a, b) && le(b, c) ==> le(a, c))
  }

  /** `StrLe` is a total order. */
  lemma StrLeTotalPreorder()
    ensures TotalPreorder((a: string, b: string) => StrLe(a, b))
  {
    forall a: string, b: string ensures StrLe(a, b) || StrLe(b, a) {
      StrLeTotal(a, b);
    }
    forall a: string, b: string, c: string | StrLe(a, b) && StrLe(b, c) ensures StrLe(a, c) {
      StrLeTrans(a, b, c);
    }
  }

  predicate SortedBy<T>(s: seq<T>, le: (T, T) -> bool) {
    forall i, j :: 0 <= i < j < |s| ==> le(s[i], s[j])
  }

  /** `x` placed before the first element it does not follow. */
  function InsertBy<T>(x: T, s: seq<T>, le: (T, T) -> bool): (r: seq<T>)
    ensures |r| == |s| + 1
  {
    if s == [] then [x]
    else if le(x, s[0]) then [x] + s
    else [s[0]] + InsertBy(x, s[1..], le)
  }

  /** Insertion sort by `le`; elements that `le` ties keep their order. */
  function SortBy<T>(s: seq<T>, le: (T, T) -> bool): (r: seq<T>)
    ensures |r| == |s|
  {
    if s == [] then [] else InsertBy(s[0], SortBy(s[1..], le), le)
  }

  lemma {:induction false} InsertByMultiset<T>(x: T, s: seq<T>, le: (T, T) -> bool)
    ensures multiset(InsertBy(x, s, le)) == multiset(s) + multiset{x}
  {
    if s != [] && !le(x, s[0]) {
      InsertByMultiset(x, s[1..], le);
      assert s == [s[0]] + s[1..];
    }
  }

  /** Sorting keeps every element as often as it occurs. */
  lemma {:induction false} SortByPermutes<T>(s: seq<T>, le: (T, T) -> bool)
    ensures multiset(SortBy(s, le)) == multiset(s)
  {
    if s != [] {
      SortByPermutes(s[1..], le);
      InsertByMultiset(s[0], SortBy(s[1..], le), le);
      assert s == [s[0]] + s[1..];
    }
  }

  /** A sorted sequence stays sorted when an element that precedes all of it is put in front. */
  lemma ConsSorted<T>(a: T, u: seq<T>, le: (T, T) -> bool)
    requires SortedBy(u, le) && forall k :: 0 <= k < |u| ==> le(a, u[k])
    ensures SortedBy([a] + u, le)
  {
    var r := [a] + u;
    forall i, j | 0 <= i < j < |r| ensures le(r[i], r[j]) {
      assert r[j] == u[j - 1];
      if i > 0 {
        assert r[i] == u[i - 1];
      }
    }
  }

  /** An element that precedes `x` and all of `t` precedes every element of a rearrangement of `[x] + t`. */
  lemma BoundAll<T>(a: T, u: seq<T>, t: seq<T>, x: T, le: (T, T) -> bool)
    requires multiset(u) == multiset(t) + multiset{x}
    requires le(a, x) && forall m :: 0 <= m < |t| ==> le(a, t[m])
    ensures forall k :: 0 <= k < |u| ==> le(a, u[k])
  {
    forall k | 0 <= k < |u| ensures le(a, u[k]) {
      assert u[k] in multiset(u);
      if u[k] != x {
        assert u[k] in multiset(t);
        var m :| 0 <= m < |t| && t[m] == u[k];
      }
    }
  }

  lemma {:induction false} InsertBySorted<T(!new)>(x: T, s: seq<T>, le: (T, T) -> bool)
    requires TotalPreorder(le) && SortedBy(s, le)
    ensures SortedBy(InsertBy(x, s, le), le)
  {
    if s != [] && !le(x, s[0]) {
      var t := s[1..];
      assert forall m :: 0 <= m < |t| ==> t[m] == s[m + 1];
      assert SortedBy(t, le);
      InsertBySorted(x, t, le);
      var u := InsertBy(x, t, le);
      InsertByMultiset(x, t, le);
      assert le(s[0], x);
      assert forall m :: 0 <= m < |t| ==> le(s[0], t[m]);
      BoundAll(s[0], u, t, x, le);
      ConsSorted(s[0], u, le);
    }
  }

  /** The sort's output is ordered by `le`. */
  lemma {:induction false} SortBySorted<T(!new)>(s: seq<T>, le: (T, T) -> bool)
    requires TotalPreorder(le)
    ensures SortedBy(SortBy(s, le), le)
  {
    if s != [] {
      SortBySorted(s[1..], le);
      InsertBySorted(s[0], SortBy(s[1..], le), le);
    }
  }

  /** Inserting `x` ahead of everything it ties with leaves the order of a tied class as it was, `x` first. */
  lemma {:induction false} InsertByFilter<T>(x: T, s: seq<T>, le: (T, T) -> bool, tied: T -> bool)
    requires forall a, b :: tied(a) && tied(b) ==> le(a, b)
    ensures Filter(InsertBy(x, s, le), tied) == (if tied(x) then [x] else []) + Filter(s, tied)
  {
    if s != [] {
      assert s == [s[0]] + s[1..];
      FilterCons(s[0], s[1..], tied);
      if le(x, s[0]) {
        FilterCons(x, s, tied);
      } else {
        InsertByFilter(x, s[1..], le, tied);
        FilterCons(s[0], InsertBy(x, s[1..], le), tied);
      }
    } else {
      FilterCons(x, [], tied);
    }
  }

  /** The sort is stable: the elements of a class that `le` ties come out in the order they went in. */
  lemma {:induction false} SortByStable<T>(s: seq<T>, le: (T, T) -> bool, tied: T -> bool)
    requires forall a, b :: tied(a) && tied(b) ==> le(a, b)
    ensures Filter(SortBy(s, le), tied) == Filter(s, tied)
  {
    if s != [] {
      SortByStable(s[1..], le, tied);
      InsertByFilter(s[0], SortBy(s[1..], le), le, tied);
      assert s == [s[0]] + s[1..];
      FilterCons(s[0], s[1..], tied);
    }
  }

  /** `sorted(vs)` on strings. */
  function SortStrings(vs: seq<string>): (r: seq<string>)
    ensures multiset(r) == multiset(vs)
    ensures forall i, j :: 0 <= i < j < |r| ==> StrLe(r[i], r[j])
  {
    StrLeTotalPreorder();
    SortByPermutes(vs, (a: string, b: string) => StrLe(a, b));
    SortBySorted(vs, (a: string, b: string) => StrLe(a, b));
    SortBy(vs, (a: string, b: string) => StrLe(a, b))
  }

  // ------------------------------------------------ picking from a ranking

  /**
   * Where a stable sort by descending count puts its first element, and
   * where `min(..., key=...)` stops: the first largest count.
   */
  function FirstMax(s: seq<int>): (i: nat)
    requires |s| > 0
    ensures i < |s| && forall j :: 0 <= j < |s| ==> s[j] <= s[i]
    ensures forall j :: 0 <= j < i ==> s[j] < s[i]
  {
    if |s| == 1 then 0
    else
      var k := FirstMax(s[..|s| - 1]);
      assert forall j :: 0 <= j < |s| - 1 ==> s[..|s| - 1][j] == s[j];
      if s[|s| - 1] > s[k] then |s| - 1 else k
  }

  /** The first smallest count: `min(..., key=...)`, and the head of a stable ascending sort. */
  function FirstMin(s: seq<int>): (i: nat)
    requires |s| > 0
    ensures i < |s| && forall j :: 0 <= j < |s| ==> s[i] <= s[j]
    ensures forall j :: 0 <= j < i ==> s[i] < s[j]
  {
    if |s| == 1 then 0
    else
      var k := FirstMin(s[..|s| - 1]);
      assert forall j :: 0 <= j < |s| - 1 ==> s[..|s| - 1][j] == s[j];
      if s[|s| - 1] < s[k] then |s| - 1 else k
  }

  /** The last largest count: the tail of a stable ascending sort. */
  function LastMax(s: seq<int>): (i: nat)
    requires |s| > 0
    ensures i < |s| && forall j :: 0 <= j < |s| ==> s[j] <= s[i]
    ensures forall j :: i < j < |s| ==> s[j] < s[i]
  {
    if |s| == 1 then 0
    else
      var k := LastMax(s[..|s| - 1]);
      assert forall j :: 0 <= j < |s| - 1 ==> s[..|s| - 1][j] == s[j];
      if s[|s| - 1] >= s[k] then |s| - 1 else k
  }
}
