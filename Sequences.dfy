/**
 * The array operations the components lean on, stated on sequences:
 * `filter`, `slice`, de-duplication through a `Set` (insertion order),
 * `flat`, and `sort` with a comparator (a stable sort).
 */
module Sequences {

  function Min(a: int, b: int): int { if a <= b then a else b }
  function Max(a: int, b: int): int { if a >= b then a else b }

  /** `s.filter(p)`: the elements satisfying `p`, each as often as in `s`. */
  function Filter<T(!new)>(s: seq<T>, p: T -> bool): (r: seq<T>)
    ensures |r| <= |s|
    ensures forall k :: 0 <= k < |r| ==> p(r[k])
    decreases |s|
  {
    if s == [] then []
    else
      var last := s[|s| - 1];
      Filter(s[..|s| - 1], p) + (if p(last) then [last] else [])
  }

  /** Each element is kept exactly as often as it occurs in the input when
      it passes the test, and dropped otherwise. */
  lemma {:induction false} FilterMultiset<T(!new)>(s: seq<T>, p: T -> bool)
    ensures forall x :: multiset(Filter(s, p))[x] == if p(x) then multiset(s)[x] else 0
    decreases |s|
  {
    if s != [] {
      var init, last := s[..|s| - 1], s[|s| - 1];
      FilterMultiset(init, p);
      assert s == init + [last];
      assert multiset(s) == multiset(init) + multiset{last};
    }
  }

  lemma FilterSnoc<T(!new)>(s: seq<T>, x: T, p: T -> bool)
    ensures Filter(s + [x], p) == Filter(s, p) + (if p(x) then [x] else [])
  {
    assert (s + [x])[..|s|] == s;
  }

  /** What is left after `filter` is drawn from the input. */
  lemma FilterSubMultiset<T(!new)>(s: seq<T>, p: T -> bool)
    ensures multiset(Filter(s, p)) <= multiset(s)
    ensures forall x :: x in s && p(x) ==> x in Filter(s, p)
  {
    var r := Filter(s, p);
    FilterMultiset(s, p);
    forall x ensures multiset(r)[x] <= multiset(s)[x] {}
    forall x | x in s && p(x) ensures x in r {
      assert multiset(s)[x] > 0;
      assert multiset(r)[x] > 0;
    }
  }

  /** Filtering by `p` and then by `q` is filtering once by `p && q`, and the
      survivors keep their order. */
  lemma {:induction false} FilterCompose<T(!new)>(s: seq<T>, p: T -> bool, q: T -> bool, pq: T -> bool)
    requires forall x :: pq(x) == (p(x) && q(x))
    ensures Filter(Filter(s, p), q) == Filter(s, pq)
    decreases |s|
  {
    if s != [] {
      var init, last := s[..|s| - 1], s[|s| - 1];
      FilterCompose(init, p, q, pq);
      var fp := Filter(init, p);
      if p(last) {
        calc {
          Filter(Filter(s, p), q);
          Filter(fp + [last], q);
          { FilterSnoc(fp, last, q); }
          Filter(fp, q) + (if q(last) then [last] else []);
          Filter(init, pq) + (if pq(last) then [last] else []);
          Filter(s, pq);
        }
      } else {
        assert Filter(s, p) == fp;
        assert Filter(s, pq) == Filter(init, pq);
      }
    }
  }

  /** Filters by predicates that agree everywhere agree. */
  lemma {:induction false} FilterExt<T(!new)>(s: seq<T>, p: T -> bool, q: T -> bool)
    requires forall x :: p(x) == q(x)
    ensures Filter(s, p) == Filter(s, q)
    decreases |s|
  {
    if s != [] {
      FilterExt(s[..|s| - 1], p, q);
    }
  }

  /** A filter whose predicate holds everywhere changes nothing. */
  lemma {:induction false} FilterAll<T(!new)>(s: seq<T>, p: T -> bool)
    requires forall k :: 0 <= k < |s| ==> p(s[k])
    ensures Filter(s, p) == s
    decreases |s|
  {
    if s != [] {
      var init := s[..|s| - 1];
      FilterAll(init, p);
      assert s == init + [s[|s| - 1]];
    }
  }

  /** `s.slice(start, end)` for non-negative bounds: indices past the end
      are clamped and an empty range gives `[]`. */
  function Slice<T>(s: seq<T>, start: nat, end: nat): (r: seq<T>)
    ensures |r| == Max(0, Min(end, |s|) - start)
    ensures forall k :: 0 <= k < |r| ==> start + k < |s| && r[k] == s[start + k]
  {
    var e := Min(end, |s|);
    if start >= e then [] else s[start..e]
  }

  /** `s.slice(0, n)`: the first `n` elements, or all of them. */
  function Take<T>(s: seq<T>, n: nat): (r: seq<T>)
    ensures |r| == Min(n, |s|)
    ensures r == s[..|r|]
  {
    Slice(s, 0, n)
  }

  predicate NoDuplicates<T(==)>(s: seq<T>) {
    forall i, j :: 0 <= i < j < |s| ==> s[i] != s[j]
  }

  /** `Array.from(new Set(s))`: each distinct element once, in order of first
      occurrence. */
  function Distinct<T(==,!new)>(s: seq<T>): (r: seq<T>)
    ensures forall x :: x in r <==> x in s
    ensures NoDuplicates(r)
    decreases |s|
  {
    if s == [] then []
    else
      var d := Distinct(s[..|s| - 1]);
      var x := s[|s| - 1];
      assert s == s[..|s| - 1] + [x];
      if x in d then d else d + [x]
  }

  /** Adding one element to a set in insertion order. */
  lemma DistinctSnoc<T(!new)>(s: seq<T>, x: T)
    ensures Distinct(s + [x]) == if x in Distinct(s) then Distinct(s) else Distinct(s) + [x]
  {
    assert (s + [x])[..|s|] == s;
  }

  /** The position of the first `x` in `s`. */
  function FirstIndex<T(==)>(s: seq<T>, x: T): (i: nat)
    requires x in s
    ensures i < |s| && s[i] == x && x !in s[..i]
  {
    if s[0] == x then 0
    else
      var i := 1 + FirstIndex(s[1..], x);
      assert s[..i] == [s[0]] + s[1..][..i - 1];
      i
  }

  /** Any position holding `x` with no `x` before it is the first one. */
  lemma FirstIndexUnique<T>(s: seq<T>, x: T, i: nat)
    requires i < |s| && s[i] == x && x !in s[..i]
    ensures FirstIndex(s, x) == i
  {
    var f := FirstIndex(s, x);
    assert forall k :: 0 <= k < i ==> s[..i][k] == s[k];
    assert forall k :: 0 <= k < f ==> s[..f][k] == s[k];
  }

  /** `r` lists elements of `s`, ordered by where each first occurs in `s`. */
  predicate InFirstSeenOrder<T(==)>(r: seq<T>, s: seq<T>) {
    && (forall x :: x in r ==> x in s)
    && (forall i, j :: 0 <= i < j < |r| ==> FirstIndex(s, r[i]) < FirstIndex(s, r[j]))
  }

  /** `Array.from(new Set(s))` lists the distinct elements in order of first
      occurrence, which with `Distinct`'s own contract fixes the result. */
  lemma {:induction false} DistinctOrder<T(!new)>(s: seq<T>)
    ensures InFirstSeenOrder(Distinct(s), s)
    decreases |s|
  {
    if s != [] {
      var init, x := s[..|s| - 1], s[|s| - 1];
      assert s == init + [x];
      DistinctOrder(init);
      var d := Distinct(init);
      forall y | y in init ensures FirstIndex(s, y) == FirstIndex(init, y) {
        var f := FirstIndex(init, y);
        assert s[..f] == init[..f];
        FirstIndexUnique(s, y, f);
      }
      if x !in d {
        assert x !in init;
        assert s[..|init|] == init;
        FirstIndexUnique(s, x, |init|);
        var r := d + [x];
        forall i, j | 0 <= i < j < |r| ensures FirstIndex(s, r[i]) < FirstIndex(s, r[j]) {
          assert r[i] == d[i] && r[i] in init;
          if j < |d| {
            assert r[j] == d[j] && r[j] in init;
          }
        }
      } else {
        forall i, j | 0 <= i < j < |d| ensures FirstIndex(s, d[i]) < FirstIndex(s, d[j]) {
          assert d[i] in init && d[j] in init;
        }
      }
    }
  }

  /** `parts.flat()`: the parts one after the other. */
  function Flatten<T(!new)>(parts: seq<seq<T>>): (r: seq<T>)
    ensures forall x :: x in r <==> exists k :: 0 <= k < |parts| && x in parts[k]
    decreases |parts|
  {
    if parts == [] then []
    else
      var init, last := parts[..|parts| - 1], parts[|parts| - 1];
      var r := Flatten(init) + last;
      assert forall k :: 0 <= k < |init| ==> init[k] == parts[k];
      r
  }

  lemma FlattenSnoc<T(!new)>(parts: seq<seq<T>>, last: seq<T>)
    ensures Flatten(parts + [last]) == Flatten(parts) + last
  {
    assert (parts + [last])[..|parts|] == parts;
  }

  /** A comparator that is total and transitive. */
  ghost predicate IsTotalPreorder<T(!new)>(le: (T, T) -> bool) {
    && (forall a, b :: le(a, b) || le(b, a))
    && (forall a, b, c :: le(a, b) && le(b, c) ==> le(a, c))
  }

  predicate SortedBy<T>(s: seq<T>, le: (T, T) -> bool) {
    forall i, j :: 0 <= i < j < |s| ==> le(s[i], s[j])
  }

  /** Puts `x` before the first element it is not after; an element equal to
      `x` stays behind it. */
  function Insert<T(!new)>(x: T, s: seq<T>, le: (T, T) -> bool): (r: seq<T>)
    ensures multiset(r) == multiset(s) + multiset{x}
    ensures IsTotalPreorder(le) && SortedBy(s, le) ==> SortedBy(r, le)
    decreases |s|
  {
    if s == [] then [x]
    else if le(x, s[0]) then
      [x] + s
    else
      var rest := Insert(x, s[1..], le);
      assert s == [s[0]] + s[1..];
      var r := [s[0]] + rest;
      assert IsTotalPreorder(le) && SortedBy(s, le) ==> SortedBy(r, le) by {
        if IsTotalPreorder(le) && SortedBy(s, le) {
          assert le(s[0], x);
          forall k | 0 <= k < |rest| ensures le(s[0], rest[k]) {
            assert rest[k] in multiset(rest);
            assert rest[k] == x || rest[k] in multiset(s[1..]);
            if rest[k] != x {
              var m :| 0 <= m < |s[1..]| && s[1..][m] == rest[k];
              assert s[m + 1] == rest[k];
            }
          }
        }
      }
      r
  }

  /** `arr.sort(cmp)`: a stable insertion sort by the comparator `le`. The
      result is a permutation of the input, in order when `le` is a total
      preorder. */
  function SortBy<T(!new)>(s: seq<T>, le: (T, T) -> bool): (r: seq<T>)
    ensures multiset(r) == multiset(s)
    ensures |r| == |s|
    ensures IsTotalPreorder(le) ==> SortedBy(r, le)
    decreases |s|
  {
    if s == [] then []
    else
      assert s == [s[0]] + s[1..];
      Insert(s[0], SortBy(s[1..], le), le)
  }

  /** An element is kept by `Filter` exactly when it is in the input and
      passes the test. */
  lemma FilterMembers<T(!new)>(s: seq<T>, p: T -> bool)
    ensures forall x :: x in Filter(s, p) <==> x in s && p(x)
  {
    FilterMultiset(s, p);
    forall x ensures x in Filter(s, p) <==> x in s && p(x) {
      assert multiset(Filter(s, p))[x] == if p(x) then multiset(s)[x] else 0;
    }
  }

  /** Sorting keeps the same elements. */
  lemma SortMembers<T(!new)>(s: seq<T>, le: (T, T) -> bool)
    ensures forall x :: x in SortBy(s, le) <==> x in s
  {
    forall x ensures x in SortBy(s, le) <==> x in s {
      assert multiset(SortBy(s, le))[x] == multiset(s)[x];
    }
  }

  /** The head of a sequence sorted by a total preorder is below every
      element. */
  lemma SortedHeadIsLeast<T(!new)>(s: seq<T>, le: (T, T) -> bool)
    requires IsTotalPreorder(le) && SortedBy(s, le) && s != []
    ensures forall x :: x in s ==> le(s[0], x)
  {
    forall x | x in s ensures le(s[0], x) {
      var j :| 0 <= j < |s| && s[j] == x;
      assert j == 0 ==> le(s[0], s[0]);
      assert j > 0 ==> le(s[0], s[j]);
    }
  }
}
