/** Sorting and filtering of sequences, used wherever the scripts call `Array.prototype.sort`. */
module Sorting {

  /** Any two values can be compared, and comparisons chain; different values may rank equal. */
  ghost predicate Ranking<T(!new)>(le: (T, T) -> bool) {
    && (forall a, b :: le(a, b) || le(b, a))
    && (forall a, b, c :: le(a, b) && le(b, c) ==> le(a, c))
  }

  ghost predicate TotalOrder<T(!new)>(le: (T, T) -> bool) {
    Ranking(le) && forall a, b :: le(a, b) && le(b, a) ==> a == b
  }

  ghost predicate Sorted<T(!new)>(s: seq<T>, le: (T, T) -> bool) {
    forall i, j | 0 <= i < j < |s| :: le(s[i], s[j])
  }

  ghost predicate NoDuplicates<T(!new)>(s: seq<T>) {
    forall i, j | 0 <= i < j < |s| :: s[i] != s[j]
  }

  function Insert<T>(x: T, s: seq<T>, le: (T, T) -> bool): seq<T> {
    if s == [] || le(x, s[0]) then [x] + s else [s[0]] + Insert(x, s[1..], le)
  }

  /** The sorted rearrangement of `s`; under a total order every correct sort returns this one. */
  function Sort<T>(s: seq<T>, le: (T, T) -> bool): seq<T> {
    if s == [] then [] else Insert(s[0], Sort(s[1..], le), le)
  }

  lemma {:induction false} InsertPermutes<T>(x: T, s: seq<T>, le: (T, T) -> bool)
    ensures multiset(Insert(x, s, le)) == multiset{x} + multiset(s)
  {
    if s == [] || le(x, s[0]) {
    } else {
      InsertPermutes(x, s[1..], le);
      assert s == [s[0]] + s[1..];
    }
  }

  lemma {:induction false} InsertSorts<T(!new)>(x: T, s: seq<T>, le: (T, T) -> bool)
    requires Ranking(le) && Sorted(s, le)
    ensures Sorted(Insert(x, s, le), le)
  {
    if s == [] || le(x, s[0]) {
    } else {
      InsertSorts(x, s[1..], le);
      InsertPermutes(x, s[1..], le);
      var t := Insert(x, s[1..], le);
      forall i | 0 <= i < |t| ensures le(s[0], t[i]) {
        assert t[i] in multiset(t);
        assert t[i] == x || t[i] in s[1..];
      }
    }
  }

  /** Sorting permutes, whatever the comparison does. */
  lemma {:induction false} SortPermutes<T>(s: seq<T>, le: (T, T) -> bool)
    ensures multiset(Sort(s, le)) == multiset(s)
  {
    if s == [] {
    } else {
      SortPermutes(s[1..], le);
      InsertPermutes(s[0], Sort(s[1..], le), le);
      assert s == [s[0]] + s[1..];
    }
  }

  lemma {:induction false} SortSorts<T(!new)>(s: seq<T>, le: (T, T) -> bool)
    requires Ranking(le)
    ensures Sorted(Sort(s, le), le) && multiset(Sort(s, le)) == multiset(s)
  {
    SortPermutes(s, le);
    if s == [] {
    } else {
      SortSorts(s[1..], le);
      InsertSorts(s[0], Sort(s[1..], le), le);
    }
  }

  lemma SameHead<T(!new)>(a: seq<T>, b: seq<T>, le: (T, T) -> bool)
    requires TotalOrder(le) && Sorted(a, le) && Sorted(b, le) && multiset(a) == multiset(b) && a != [] && b != []
    ensures a[0] == b[0]
  {
    assert a[0] in multiset(b) && b[0] in multiset(a);
    var i :| 0 <= i < |b| && b[i] == a[0];
    var j :| 0 <= j < |a| && a[j] == b[0];
  }

  lemma SameTail<T>(a: seq<T>, b: seq<T>)
    requires multiset(a) == multiset(b) && a != [] && b != [] && a[0] == b[0]
    ensures multiset(a[1..]) == multiset(b[1..])
  {
    assert a == [a[0]] + a[1..] && b == [b[0]] + b[1..];
    assert multiset(a[1..]) == multiset(a) - multiset{a[0]} == multiset(b[1..]);
  }

  /** A sorted sequence is determined by its elements. */
  lemma {:induction false} SortedUnique<T(!new)>(a: seq<T>, b: seq<T>, le: (T, T) -> bool)
    requires TotalOrder(le) && Sorted(a, le) && Sorted(b, le) && multiset(a) == multiset(b)
    ensures a == b
  {
    hide TotalOrder;
    assert |a| == |multiset(a)| == |multiset(b)| == |b|;
    if a == [] {
    } else {
      SameHead(a, b, le);
      SameTail(a, b);
      SortedUnique(a[1..], b[1..], le);
      assert a == [a[0]] + a[1..] && b == [b[0]] + b[1..];
    }
  }

  lemma SortOfPermutation<T(!new)>(a: seq<T>, b: seq<T>, le: (T, T) -> bool)
    requires TotalOrder(le) && multiset(a) == multiset(b)
    ensures Sort(a, le) == Sort(b, le)
  {
    SortSorts(a, le);
    SortSorts(b, le);
    SortedUnique(Sort(a, le), Sort(b, le), le);
  }

  lemma SortOfSorted<T(!new)>(s: seq<T>, le: (T, T) -> bool)
    requires TotalOrder(le) && Sorted(s, le)
    ensures Sort(s, le) == s
  {
    SortSorts(s, le);
    SortedUnique(Sort(s, le), s, le);
  }

  /** `s.filter(keep).map(f)`. */
  function FilterMap<T, U>(s: seq<T>, keep: T -> bool, f: T -> U): seq<U> {
    if s == [] then []
    else (if keep(s[0]) then [f(s[0])] else []) + FilterMap(s[1..], keep, f)
  }

  lemma {:induction false} FilterMapConcat<T, U>(a: seq<T>, b: seq<T>, keep: T -> bool, f: T -> U)
    ensures FilterMap(a + b, keep, f) == FilterMap(a, keep, f) + FilterMap(b, keep, f)
  {
    if a == [] {
      assert a + b == b;
    } else {
      var head := if keep(a[0]) then [f(a[0])] else [];
      var x, y := FilterMap(a[1..], keep, f), FilterMap(b, keep, f);
      FilterMapConcat(a[1..], b, keep, f);
      assert (a + b)[1..] == a[1..] + b && (a + b)[0] == a[0];
      assert head + (x + y) == (head + x) + y;
    }
  }

  function One<T, U>(x: T, keep: T -> bool, f: T -> U): seq<U> { if keep(x) then [f(x)] else [] }

  lemma FilterMapMiddle<T, U>(l: seq<T>, x: T, r: seq<T>, keep: T -> bool, f: T -> U)
    ensures multiset(FilterMap(l + [x] + r, keep, f)) == multiset(One(x, keep, f)) + multiset(FilterMap(l + r, keep, f))
  {
    FilterMapConcat(l, r, keep, f);
    FilterMapConcat(l + [x], r, keep, f);
    FilterMapConcat(l, [x], keep, f);
    assert FilterMap([x], keep, f) == One(x, keep, f) + FilterMap([x][1..], keep, f);
  }

  /** Splits `b` around one occurrence of the head of its permutation `a`. */
  lemma RemoveFrom<T>(a: seq<T>, b: seq<T>) returns (l: seq<T>, r: seq<T>)
    requires a != [] && multiset(a) == multiset(b)
    ensures b == l + [a[0]] + r && multiset(a[1..]) == multiset(l + r)
  {
    assert a[0] in multiset(a);
    var k := IndexIn(b, a[0]);
    l, r := b[..k], b[k + 1..];
    assert b == l + [a[0]] + r;
    Without(l, a[0], r);
    WithoutHead(a);
  }

  lemma IndexIn<T>(b: seq<T>, x: T) returns (k: nat)
    requires x in multiset(b)
    ensures k < |b| && b[k] == x
  {
    k :| k < |b| && b[k] == x;
  }

  lemma WithoutHead<T>(a: seq<T>)
    requires a != []
    ensures multiset(a[1..]) == multiset(a) - multiset{a[0]}
  {
    assert a == [a[0]] + a[1..];
  }

  lemma Without<T>(l: seq<T>, x: T, r: seq<T>)
    ensures multiset(l + r) == multiset(l + [x] + r) - multiset{x}
  {
  }

  /** Filtering and mapping permuted inputs gives permuted outputs. */
  lemma {:induction false} FilterMapPermutes<T, U>(a: seq<T>, b: seq<T>, keep: T -> bool, f: T -> U)
    requires multiset(a) == multiset(b)
    ensures multiset(FilterMap(a, keep, f)) == multiset(FilterMap(b, keep, f))
  {
    if a == [] {
      assert |b| == |multiset(b)| == 0;
    } else {
      var l, r := RemoveFrom(a, b);
      FilterMapPermutes(a[1..], l + r, keep, f);
      FilterMapMiddle(l, a[0], r, keep, f);
      FilterMapMiddle([], a[0], a[1..], keep, f);
      assert [] + [a[0]] + a[1..] == a && [] + a[1..] == a[1..];
    }
  }

  /** The positions among the first `n` that are kept and mapped to `u`. */
  ghost function Hits<T, U>(s: seq<T>, n: nat, keep: T -> bool, f: T -> U, u: U): set<nat>
    requires n <= |s|
  {
    set i: nat | i < n && keep(s[i]) && f(s[i]) == u
  }

  /** A value comes out of filtering and mapping once for every position that is kept and mapped to it. */
  lemma {:induction false} FilterMapCounts<T, U>(s: seq<T>, n: nat, keep: T -> bool, f: T -> U, u: U)
    requires n <= |s|
    ensures multiset(FilterMap(s[..n], keep, f))[u] == |Hits(s, n, keep, f, u)|
  {
    hide FilterMap, Hits;
    if n == 0 {
      NoHits(s, keep, f, u);
    } else {
      FilterMapCounts(s, n - 1, keep, f, u);
      FilterMapLast(s, n, keep, f);
      NextHit(s, n, keep, f, u);
    }
  }

  lemma NoHits<T, U>(s: seq<T>, keep: T -> bool, f: T -> U, u: U)
    ensures Hits(s, 0, keep, f, u) == {} && FilterMap(s[..0], keep, f) == []
  {
  }

  lemma NextHit<T, U>(s: seq<T>, n: nat, keep: T -> bool, f: T -> U, u: U)
    requires 0 < n <= |s|
    ensures |Hits(s, n, keep, f, u)| == |Hits(s, n - 1, keep, f, u)| + multiset(One(s[n - 1], keep, f))[u]
  {
    var x := s[n - 1];
    assert Hits(s, n, keep, f, u) == Hits(s, n - 1, keep, f, u) + if keep(x) && f(x) == u then {n - 1} else {};
  }

  lemma FilterMapLast<T, U>(s: seq<T>, n: nat, keep: T -> bool, f: T -> U)
    requires 0 < n <= |s|
    ensures FilterMap(s[..n], keep, f) == FilterMap(s[..n - 1], keep, f) + One(s[n - 1], keep, f)
  {
    assert s[..n] == s[..n - 1] + [s[n - 1]];
    FilterMapConcat(s[..n - 1], [s[n - 1]], keep, f);
    assert FilterMap([s[n - 1]], keep, f) == One(s[n - 1], keep, f) + FilterMap([s[n - 1]][1..], keep, f);
  }

  lemma {:induction false} KeepsAll<T, U>(s: seq<T>, keep: T -> bool, f: T -> U)
    requires forall i | 0 <= i < |s| :: keep(s[i])
    ensures |FilterMap(s, keep, f)| == |s|
  {
    if s != [] { KeepsAll(s[1..], keep, f); }
  }

  lemma {:induction false} KeepsNone<T, U>(s: seq<T>, keep: T -> bool, f: T -> U)
    requires forall i | 0 <= i < |s| :: !keep(s[i])
    ensures FilterMap(s, keep, f) == []
  {
    if s != [] { KeepsNone(s[1..], keep, f); }
  }

  lemma {:induction false} NoDuplicatesMultiset<T(!new)>(s: seq<T>)
    ensures NoDuplicates(s) <==> forall x :: multiset(s)[x] <= 1
  {
    if s == [] {
    } else {
      NoDuplicatesMultiset(s[1..]);
      assert s == [s[0]] + s[1..];
      assert s[0] in s[1..] <==> s[0] in multiset(s[1..]);
      if NoDuplicates(s) {
        forall x ensures multiset(s)[x] <= 1 { assert x == s[0] ==> x !in s[1..]; }
      } else if NoDuplicates(s[1..]) {
        var j :| 1 <= j < |s| && s[0] == s[j];
        assert s[1..][j - 1] == s[0];
        assert multiset(s)[s[0]] >= 2;
      } else {
        var x :| multiset(s[1..])[x] > 1;
        assert multiset(s)[x] > 1;
      }
    }
  }

  /** Duplicate-free sequences with the same elements are permutations of each other. */
  lemma SameElements<T(!new)>(a: seq<T>, b: seq<T>)
    requires NoDuplicates(a) && NoDuplicates(b)
    requires forall x :: x in a <==> x in b
    ensures multiset(a) == multiset(b)
  {
    NoDuplicatesMultiset(a);
    NoDuplicatesMultiset(b);
    forall x ensures multiset(a)[x] == multiset(b)[x] {
      assert x in a <==> x in multiset(a);
      assert x in b <==> x in multiset(b);
    }
  }
}
