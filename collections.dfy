/** The parts of Swift's standard library that the data controller relies on:
    `sort(by:)`, `filter(_:)` and `firstIndex(where:)`, stated over Dafny
    sequences. Swift arrays are values, so an in-place `sort` on a `var`
    array is the same as replacing the array by a sorted copy. */
module Collections {

  datatype Option<T> = None | Some(value: T)

  /** `s` is ordered non-decreasingly by `key`: what a Swift sort with the
      comparator `{ key($0) < key($1) }` guarantees of its result. */
  ghost predicate SortedBy<T>(s: seq<T>, key: T -> int) {
    forall i, j :: 0 <= i < j < |s| ==> key(s[i]) <= key(s[j])
  }

  /** Inserts `x` into the sorted sequence `s`, keeping it sorted. */
  function Insert<T>(x: T, s: seq<T>, key: T -> int): (r: seq<T>)
    requires SortedBy(s, key)
    ensures SortedBy(r, key)
    ensures multiset(r) == multiset(s) + multiset{x}
    ensures |r| == |s| + 1
    ensures key(r[0]) == key(x) || (s != [] && key(r[0]) == key(s[0]))
    decreases |s|
  {
    if s == [] || key(x) <= key(s[0]) then
      [x] + s
    else
      var rest := Insert(x, s[1..], key);
      assert s == [s[0]] + s[1..];
      var r := [s[0]] + rest;
      assert forall i, j :: 0 <= i < j < |r| ==> key(r[i]) <= key(r[j]) by {
        forall i, j | 0 <= i < j < |r| ensures key(r[i]) <= key(r[j]) {
          if i == 0 {
            assert key(r[0]) <= key(rest[0]);
          }
        }
      }
      r
  }

  /** A sort by an integer key. The library's sort is not documented to be
      stable, so what is promised of it is only that the result is sorted
      and is a permutation of the input. */
  function SortBy<T>(s: seq<T>, key: T -> int): (r: seq<T>)
    ensures SortedBy(r, key)
    ensures multiset(r) == multiset(s)
    ensures |r| == |s|
  {
    if s == [] then
      []
    else
      assert s == [s[0]] + s[1..];
      Insert(s[0], SortBy(s[1..], key), key)
  }

  /** `r` can be obtained from `s` by deleting elements: the relative order of
      the elements kept is that of `s`. */
  ghost predicate IsSubsequence<T>(r: seq<T>, s: seq<T>)
    decreases |s|
  {
    r == [] ||
    (s != [] &&
     ((r[0] == s[0] && IsSubsequence(r[1..], s[1..])) || IsSubsequence(r, s[1..])))
  }

  /** The elements of `s` that satisfy `p`, in their order in `s`. */
  function Filter<T(!new)>(s: seq<T>, p: T -> bool): (r: seq<T>)
    ensures |r| <= |s|
  {
    if s == [] then
      []
    else
      assert s == [s[0]] + s[1..];
      if p(s[0]) then [s[0]] + Filter(s[1..], p) else Filter(s[1..], p)
  }

  /** An element is kept exactly when it is in `s` and satisfies `p`. */
  lemma {:induction false} FilterMembership<T(!new)>(s: seq<T>, p: T -> bool)
    ensures forall x :: x in Filter(s, p) <==> x in s && p(x)
    decreases |s|
  {
    if s != [] {
      FilterMembership(s[1..], p);
      assert s == [s[0]] + s[1..];
    }
  }

  /** A filter keeps every occurrence of what it keeps and drops every
      occurrence of the rest. */
  lemma {:induction false} FilterMultiplicity<T(!new)>(s: seq<T>, p: T -> bool)
    ensures forall x :: multiset(Filter(s, p))[x] == if p(x) then multiset(s)[x] else 0
    decreases |s|
  {
    if s != [] {
      FilterMultiplicity(s[1..], p);
      assert s == [s[0]] + s[1..];
    }
  }

  /** The predicate that holds exactly where `p` does not. */
  function Complement<T(!new)>(p: T -> bool): (q: T -> bool)
    ensures forall x :: q(x) == !p(x)
  {
    x => !p(x)
  }

  /** A filter keeps the relative order of what it keeps. */
  lemma {:induction false} FilterIsSubsequence<T(!new)>(s: seq<T>, p: T -> bool)
    ensures IsSubsequence(Filter(s, p), s)
    decreases |s|
  {
    if s != [] {
      FilterIsSubsequence(s[1..], p);
    }
  }

  /** Filtering by `p` and by its complement splits `s` in two: together the
      two results hold every element of `s` as often as `s` does, and no
      element is in both. */
  lemma FilterPartition<T(!new)>(s: seq<T>, p: T -> bool)
    ensures multiset(Filter(s, p)) + multiset(Filter(s, Complement(p))) == multiset(s)
    ensures |Filter(s, p)| + |Filter(s, Complement(p))| == |s|
    ensures forall x :: !(x in Filter(s, p) && x in Filter(s, Complement(p)))
  {
    var kept, dropped := Filter(s, p), Filter(s, Complement(p));
    FilterMultiplicity(s, p);
    FilterMultiplicity(s, Complement(p));
    assert multiset(kept) + multiset(dropped) == multiset(s) by {
      forall x ensures (multiset(kept) + multiset(dropped))[x] == multiset(s)[x] {
      }
    }
    assert |kept| + |dropped| == |multiset(kept) + multiset(dropped)|;
    FilterMembership(s, p);
    FilterMembership(s, Complement(p));
  }

  /** A filtered sequence is as sorted as the sequence it came from. */
  lemma {:induction false} FilterKeepsSorted<T(!new)>(s: seq<T>, p: T -> bool, key: T -> int)
    requires SortedBy(s, key)
    ensures SortedBy(Filter(s, p), key)
    decreases |s|
  {
    if s != [] && p(s[0]) {
      var t := Filter(s[1..], p);
      FilterKeepsSorted(s[1..], p, key);
      forall y | y in t ensures key(s[0]) <= key(y) {
        FilterMembership(s[1..], p);
        var k :| 0 <= k < |s[1..]| && s[1..][k] == y;
        assert s[k + 1] == y;
      }
      var r := [s[0]] + t;
      forall i, j | 0 <= i < j < |r| ensures key(r[i]) <= key(r[j]) {
        if i == 0 {
          assert r[j] in t;
        }
      }
    } else if s != [] {
      FilterKeepsSorted(s[1..], p, key);
    }
  }

  /** Position `i` of `s` satisfies `p` and no earlier position does. */
  ghost predicate IsFirstMatch<T>(s: seq<T>, p: T -> bool, i: int) {
    0 <= i < |s| && p(s[i]) && forall j :: 0 <= j < i ==> !p(s[j])
  }

  /** The index of the first element of `s` that satisfies `p`, or `None`
      when no element does. */
  function FirstIndex<T>(s: seq<T>, p: T -> bool): (r: Option<nat>)
    ensures r.Some? ==> IsFirstMatch(s, p, r.value)
    ensures r.None? <==> forall j :: 0 <= j < |s| ==> !p(s[j])
  {
    if s == [] then
      None
    else if p(s[0]) then
      Some(0)
    else
      match FirstIndex(s[1..], p)
      case None => None
      case Some(i) => Some(i + 1)
  }
}
