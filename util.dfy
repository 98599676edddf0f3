/** Sequence helpers shared by the poker model: the list operations that the
    Python source takes from the language (dict counting, set(), sorted(),
    slicing, list comprehensions with a condition). */
module Util {

  datatype Option<T> = None | Some(value: T)

  /** No element occurs twice. */
  predicate Distinct<T(==)>(s: seq<T>) {
    forall i, j :: 0 <= i < j < |s| ==> s[i] != s[j]
  }

  /** Sorted from the largest to the smallest value (duplicates allowed). */
  predicate NonIncreasing(s: seq<int>) {
    forall i, j :: 0 <= i < j < |s| ==> s[i] >= s[j]
  }

  /** Sorted from the largest to the smallest value, no duplicates. */
  predicate Decreasing(s: seq<int>) {
    forall i, j :: 0 <= i < j < |s| ==> s[i] > s[j]
  }

  /** Sorted from the smallest to the largest value, no duplicates. */
  predicate Increasing(s: seq<int>) {
    forall i, j :: 0 <= i < j < |s| ==> s[i] < s[j]
  }

  /** The elements of s in the order of their first occurrence, each once:
      the key order of a Python dict filled by a loop over s. Defined from the
      end, so that one more loop iteration extends it. */
  function Dedup<T(==,!new)>(s: seq<T>): (d: seq<T>)
    ensures forall x :: x in d <==> x in s
    ensures Distinct(d)
    ensures |d| <= |s|
  {
    if s == [] then []
    else
      var d := Dedup(s[..|s| - 1]);
      if s[|s| - 1] in s[..|s| - 1] then d else d + [s[|s| - 1]]
  }

  /** The elements of s that satisfy keep, in order: `[x for x in s if keep(x)]`. */
  function Filter<T(!new)>(s: seq<T>, keep: T -> bool): (r: seq<T>)
    ensures |r| <= |s|
    ensures forall x :: x in r <==> x in s && keep(x)
    ensures multiset(r) <= multiset(s)
    ensures forall x :: multiset(r)[x] == if keep(x) then multiset(s)[x] else 0
  {
    if s == [] then []
    else
      var r := Filter(s[..|s| - 1], keep);
      assert s == s[..|s| - 1] + [s[|s| - 1]];
      if keep(s[|s| - 1]) then r + [s[|s| - 1]] else r
  }

  /** Filtering keeps the order: one more element at the end of the list
      lands at the end of the result exactly when it passes. */
  lemma FilterSnoc<T(!new)>(s: seq<T>, x: T, keep: T -> bool)
    ensures Filter(s + [x], keep) == Filter(s, keep) + (if keep(x) then [x] else [])
  {
    var sx := s + [x];
    assert sx[..|sx| - 1] == s;
  }

  /** Python's `s[:k]`. */
  function Take<T>(s: seq<T>, k: nat): (r: seq<T>)
    ensures |r| == if k <= |s| then k else |s|
    ensures forall i :: 0 <= i < |r| ==> r[i] == s[i]
  {
    if k <= |s| then s[..k] else s
  }

  /** Inserts x into a list sorted from the largest value down. */
  function Insert(x: int, s: seq<int>): (r: seq<int>)
    requires NonIncreasing(s)
    ensures NonIncreasing(r)
    ensures multiset(r) == multiset(s) + multiset{x}
  {
    if s == [] || x >= s[0] then
      InsertFront(x, s);
      [x] + s
    else
      var t := Insert(x, s[1..]);
      InsertBehind(x, s, t);
      [s[0]] + t
  }

  lemma InsertFront(x: int, s: seq<int>)
    requires NonIncreasing(s)
    requires s == [] || x >= s[0]
    ensures NonIncreasing([x] + s)
  {
    var r := [x] + s;
    forall i, j | 0 <= i < j < |r| ensures r[i] >= r[j] {
      if i > 0 { assert r[i] == s[i - 1] && r[j] == s[j - 1]; }
      else if j > 1 { assert s[0] >= s[j - 1]; }
    }
  }

  lemma InsertBehind(x: int, s: seq<int>, t: seq<int>)
    requires NonIncreasing(s) && s != [] && x < s[0]
    requires NonIncreasing(t) && multiset(t) == multiset(s[1..]) + multiset{x}
    ensures NonIncreasing([s[0]] + t)
    ensures multiset([s[0]] + t) == multiset(s) + multiset{x}
  {
    assert s == [s[0]] + s[1..];
    forall y | y in t ensures y <= s[0] {
      assert y in multiset(t);
      if y != x {
        assert y in multiset(s[1..]);
        var k :| 0 <= k < |s[1..]| && s[1..][k] == y;
        assert s[k + 1] == y;
      }
    }
    var r := [s[0]] + t;
    forall i, j | 0 <= i < j < |r| ensures r[i] >= r[j] {
      assert r[j] == t[j - 1];
      if i > 0 { assert r[i] == t[i - 1]; } else { assert t[j - 1] in t; }
    }
  }

  /** `sorted(s, reverse=True)`. */
  function SortDesc(s: seq<int>): (r: seq<int>)
    ensures NonIncreasing(r)
    ensures multiset(r) == multiset(s)
    ensures |r| == |s|
  {
    if s == [] then []
    else
      assert s == [s[0]] + s[1..];
      Insert(s[0], SortDesc(s[1..]))
  }

  /** The first element of a list sorted from the largest value down is its maximum. */
  lemma {:induction false} SortDescHeadIsMax(s: seq<int>)
    requires |s| > 0
    ensures SortDesc(s)[0] in s
    ensures forall x :: x in s ==> x <= SortDesc(s)[0]
  {
    var r := SortDesc(s);
    assert r[0] in multiset(r);
    forall x | x in s ensures x <= r[0] {
      assert x in multiset(s);
      assert x in multiset(r);
      var i :| 0 <= i < |r| && r[i] == x;
      if i > 0 { assert r[0] >= r[i]; }
    }
  }

  /** Sorting a list without duplicates yields a strictly decreasing list. */
  lemma {:induction false} SortDescDistinct(s: seq<int>)
    requires Distinct(s)
    ensures Decreasing(SortDesc(s))
  {
    var r := SortDesc(s);
    DistinctCounts(s);
    forall i, j | 0 <= i < j < |r| ensures r[i] > r[j] {
      MultisetTwoPositions(r, i, j);
      assert multiset(r)[r[i]] == multiset(s)[r[i]] <= 1;
    }
  }

  /** A value at two distinct positions is counted at least twice. */
  lemma MultisetTwoPositions<T>(s: seq<T>, i: nat, j: nat)
    requires i < j < |s|
    ensures s[i] == s[j] ==> multiset(s)[s[i]] >= 2
  {
    if s[i] == s[j] {
      assert s == s[..i] + [s[i]] + s[i+1..j] + [s[j]] + s[j+1..];
    }
  }

  /** No duplicates exactly when every element is counted at most once. */
  lemma DistinctMultiset<T>(s: seq<T>)
    ensures Distinct(s) <==> forall x :: multiset(s)[x] <= 1
  {
    if Distinct(s) {
      DistinctCounts(s);
    } else {
      var i, j :| 0 <= i < j < |s| && s[i] == s[j];
      MultisetTwoPositions(s, i, j);
    }
  }

  lemma {:induction false} DistinctCounts<T>(s: seq<T>)
    requires Distinct(s)
    ensures forall x :: multiset(s)[x] <= 1
  {
    if s != [] {
      assert Distinct(s[1..]) by {
        forall i, j | 0 <= i < j < |s[1..]| ensures s[1..][i] != s[1..][j] {
          assert s[1..][i] == s[i + 1] && s[1..][j] == s[j + 1];
        }
      }
      DistinctCounts(s[1..]);
      assert s[0] !in s[1..] by {
        forall k | 0 <= k < |s[1..]| ensures s[1..][k] != s[0] {
          assert s[1..][k] == s[k + 1];
        }
      }
      assert s == [s[0]] + s[1..];
      assert multiset(s) == multiset{s[0]} + multiset(s[1..]);
    }
  }

  /** A list without duplicates whose elements all lie in a set is no longer
      than the set. */
  lemma {:induction false} DistinctWithin<T>(s: seq<T>, within: set<T>)
    requires Distinct(s)
    requires forall x :: x in s ==> x in within
    ensures |s| <= |within|
  {
    if s != [] {
      assert Distinct(s[1..]) by {
        forall i, j | 0 <= i < j < |s[1..]| ensures s[1..][i] != s[1..][j] {
          assert s[1..][i] == s[i + 1] && s[1..][j] == s[j + 1];
        }
      }
      forall x | x in s[1..] ensures x in within - {s[0]} {
        var k :| 0 <= k < |s[1..]| && s[1..][k] == x;
        assert s[k + 1] == x;
      }
      DistinctWithin(s[1..], within - {s[0]});
    }
  }

  /** Two lists sorted from the largest value down with the same elements are equal. */
  lemma {:induction false} SortedUnique(a: seq<int>, b: seq<int>)
    requires NonIncreasing(a) && NonIncreasing(b)
    requires multiset(a) == multiset(b)
    ensures a == b
  {
    assert |a| == |multiset(a)| == |multiset(b)| == |b|;
    if a != [] {
      SortedHeads(a, b);
      assert a == [a[0]] + a[1..] && b == [b[0]] + b[1..];
      assert multiset(a[1..]) == multiset(a) - multiset{a[0]};
      assert multiset(b[1..]) == multiset(b) - multiset{b[0]};
      SortedUnique(a[1..], b[1..]);
    }
  }

  lemma SortedHeads(a: seq<int>, b: seq<int>)
    requires NonIncreasing(a) && NonIncreasing(b)
    requires multiset(a) == multiset(b) && a != [] && b != []
    ensures a[0] == b[0]
  {
    assert a[0] in multiset(b) && b[0] in multiset(a);
    var i :| 0 <= i < |b| && b[i] == a[0];
    var j :| 0 <= j < |a| && a[j] == b[0];
    if i > 0 { assert b[0] >= b[i]; }
    if j > 0 { assert a[0] >= a[j]; }
  }

  /** The first element of s that satisfies p: a loop over s that stops at
      the first match. */
  function FirstWith<T(!new)>(s: seq<T>, p: T -> bool): (r: Option<T>)
    ensures r.Some? ==> r.value in s && p(r.value)
  {
    if s == [] then None
    else if p(s[0]) then Some(s[0])
    else FirstWith(s[1..], p)
  }

  /** FirstWith finds the element at the first position that satisfies p,
      and nothing only when no element does. */
  lemma {:induction false} FirstWithIsFirst<T(!new)>(s: seq<T>, p: T -> bool)
    ensures FirstWith(s, p).Some? ==>
      exists i :: 0 <= i < |s| && s[i] == FirstWith(s, p).value && p(s[i]) &&
        forall j :: 0 <= j < i ==> !p(s[j])
    ensures FirstWith(s, p).None? <==> forall i :: 0 <= i < |s| ==> !p(s[i])
  {
    if s != [] && !p(s[0]) {
      FirstWithIsFirst(s[1..], p);
      assert forall i :: 1 <= i < |s| ==> s[i] == s[1..][i - 1];
      if FirstWith(s, p).Some? {
        var i :| 0 <= i < |s[1..]| && s[1..][i] == FirstWith(s, p).value && p(s[1..][i]) &&
          forall j :: 0 <= j < i ==> !p(s[1..][j]);
        assert s[i + 1] == FirstWith(s, p).value;
        forall j | 0 <= j < i + 1 ensures !p(s[j]) {
          if j > 0 { assert s[j] == s[1..][j - 1]; }
        }
      }
    } else if s != [] {
      assert s[0] == FirstWith(s, p).value;
    }
  }

  /** The last element of s that satisfies p: a loop over s that keeps
      overwriting its result on every match. Defined from the end. */
  function LastWith<T(!new)>(s: seq<T>, p: T -> bool): (r: Option<T>)
    ensures r.Some? ==> r.value in s && p(r.value)
  {
    if s == [] then None
    else if p(s[|s| - 1]) then Some(s[|s| - 1])
    else LastWith(s[..|s| - 1], p)
  }

  /** LastWith finds the element at the last position that satisfies p, and
      nothing only when no element does. */
  lemma {:induction false} LastWithIsLast<T(!new)>(s: seq<T>, p: T -> bool)
    ensures LastWith(s, p).Some? ==>
      exists i :: 0 <= i < |s| && s[i] == LastWith(s, p).value && p(s[i]) &&
        forall j :: i < j < |s| ==> !p(s[j])
    ensures LastWith(s, p).None? <==> forall i :: 0 <= i < |s| ==> !p(s[i])
  {
    if s != [] && !p(s[|s| - 1]) {
      var init := s[..|s| - 1];
      LastWithIsLast(init, p);
      assert LastWith(s, p) == LastWith(init, p);
      assert forall i :: 0 <= i < |init| ==> s[i] == init[i];
      if LastWith(init, p).Some? {
        var i :| 0 <= i < |init| && init[i] == LastWith(init, p).value && p(init[i]) &&
          forall j :: i < j < |init| ==> !p(init[j]);
        assert forall j :: i < j < |s| ==> !p(s[j]);
      } else {
        assert forall i :: 0 <= i < |s| ==> !p(s[i]);
      }
    } else if s != [] {
      assert s[|s| - 1] == LastWith(s, p).value;
    }
  }

  /** t is a selection of the k largest elements of xs (with multiplicity),
      from the largest down: `sorted(xs, reverse=True)[:k]`. */
  predicate TopOf(t: seq<int>, xs: seq<int>, k: nat) {
    && |t| == (if k <= |xs| then k else |xs|)
    && NonIncreasing(t)
    && multiset(t) <= multiset(xs)
    && forall x :: x in multiset(xs) - multiset(t) ==> forall i :: 0 <= i < |t| ==> x <= t[i]
  }

  /** Sorting keeps exactly the elements of the list. */
  lemma SortDescMembers(s: seq<int>)
    ensures forall x :: x in SortDesc(s) <==> x in s
  {
    var r := SortDesc(s);
    forall x ensures x in r <==> x in s {
      assert x in r <==> x in multiset(r);
      assert x in s <==> x in multiset(s);
    }
  }

  lemma TakeSortDescIsTop(xs: seq<int>, k: nat)
    ensures TopOf(Take(SortDesc(xs), k), xs, k)
  {
    var r := SortDesc(xs);
    var t := Take(r, k);
    var rest := r[|t|..];
    assert r == t + rest;
    assert multiset(r) == multiset(t) + multiset(rest);
    SplitSortedBound(r, t, rest);
  }

  lemma SplitSortedBound(r: seq<int>, t: seq<int>, rest: seq<int>)
    requires NonIncreasing(r) && r == t + rest
    ensures NonIncreasing(t)
    ensures forall x :: x in multiset(rest) ==> forall i :: 0 <= i < |t| ==> x <= t[i]
  {
    forall i, j | 0 <= i < j < |t| ensures t[i] >= t[j] {
      assert t[i] == r[i] && t[j] == r[j];
    }
    forall x | x in multiset(rest) ensures forall i :: 0 <= i < |t| ==> x <= t[i] {
      var m :| 0 <= m < |rest| && rest[m] == x;
      forall i | 0 <= i < |t| ensures x <= t[i] {
        assert r[i] == t[i] && r[|t| + m] == x;
      }
    }
  }

  /** Keeping some elements of a list without duplicates leaves none. */
  lemma FilterDistinct<T(!new)>(s: seq<T>, keep: T -> bool)
    requires Distinct(s)
    ensures Distinct(Filter(s, keep))
  {
    var r := Filter(s, keep);
    DistinctMultiset(s);
    forall x ensures multiset(r)[x] <= 1 {
      assert multiset(r)[x] <= multiset(s)[x];
    }
    DistinctMultiset(r);
  }

  /** A list in which x is counted fewer times than its length holds an
      element other than x. */
  lemma {:induction false} CountBelowLength<T>(s: seq<T>, x: T)
    ensures multiset(s)[x] < |s| ==> exists y :: y in s && y != x
  {
    if s != [] && multiset(s)[x] < |s| {
      if s[0] != x {
        assert s[0] in s;
      } else {
        assert s == [s[0]] + s[1..];
        assert multiset(s) == multiset{s[0]} + multiset(s[1..]);
        CountBelowLength(s[1..], x);
        var y :| y in s[1..] && y != x;
        assert y in s;
      }
    }
  }

  /** A dictionary filled by `d[x] = d.get(x, 0) + 1` over the list seen,
      given as its keys in insertion order and the map itself. */
  ghost predicate Tally<T(!new)>(keys: seq<T>, d: map<T, nat>, seen: seq<T>) {
    && keys == Dedup(seen)
    && (forall y :: y in d <==> y in seen)
    && (forall y :: y in d ==> d[y] == multiset(seen)[y])
  }

  /** The key list after `d[x] = ...`: x is appended when it is new. */
  function AddKey<T>(keys: seq<T>, d: map<T, nat>, x: T): seq<T> {
    if x in d then keys else keys + [x]
  }

  /** The map after `d[x] = d.get(x, 0) + 1`. */
  function Bump<T>(d: map<T, nat>, x: T): map<T, nat> {
    d[x := (if x in d then d[x] else 0) + 1]
  }

  /** One more step of the counting loop keeps the tally. */
  lemma TallyStep<T(!new)>(keys: seq<T>, d: map<T, nat>, seen: seq<T>, x: T)
    requires Tally(keys, d, seen)
    ensures Tally(AddKey(keys, d, x), Bump(d, x), seen + [x])
  {
    var s := seen + [x];
    assert s[..|s| - 1] == seen;
    assert multiset(s) == multiset(seen) + multiset{x};
    assert x !in d ==> multiset(seen)[x] == 0;
  }

  /** After the key list is complete every key has its count. */
  lemma TallyCounts<T(!new)>(keys: seq<T>, d: map<T, nat>, seen: seq<T>)
    requires Tally(keys, d, seen)
    ensures forall y :: y in keys ==> y in d && d[y] == multiset(seen)[y]
  {
  }

  /** Python's `min` of two integers. */
  function Min(a: int, b: int): (m: int)
    ensures m <= a && m <= b && (m == a || m == b)
  {
    if a <= b then a else b
  }

  /** Python's `max` of two integers. */
  function Max(a: int, b: int): (m: int)
    ensures m >= a && m >= b && (m == a || m == b)
  {
    if a >= b then a else b
  }

  /** Python's `int(x)` of the exact quotient a / b: truncation toward zero
      (Dafny's `/` on `int` is Euclidean). */
  function Truncate(a: int, b: int): (q: int)
    requires b > 0
    ensures 0 <= a ==> 0 <= q && q * b <= a < q * b + b
    ensures a < 0 ==> q <= 0 && q * b - b < a <= q * b
  {
    var n := if a >= 0 then a else -a;
    assert n == b * (n / b) + n % b && 0 <= n % b < b;
    if a >= 0 then n / b else -(n / b)
  }
}
