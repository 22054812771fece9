/**
 * Sequence operations that stand for JavaScript's `Array.prototype.filter`
 * and a stable `Array.prototype.sort` with a descending numeric comparator,
 * together with the facts the stores rely on.
 */
module Seqs {

  /** `s.filter(f)`: the elements of `s` that satisfy `f`, in their order. */
  function Filter<T>(f: T -> bool, s: seq<T>): (r: seq<T>)
    ensures |r| <= |s|
    ensures forall i :: 0 <= i < |r| ==> r[i] in s && f(r[i])
    ensures forall i :: 0 <= i < |s| && f(s[i]) ==> s[i] in r
  {
    if s == [] then []
    else if f(s[0]) then [s[0]] + Filter(f, s[1..])
    else Filter(f, s[1..])
  }

  /** `a` is `b` with some elements left out, the rest in the same order. */
  ghost predicate IsSubsequence<T>(a: seq<T>, b: seq<T>)
    decreases |b|
  {
    a == [] || (b != [] && ((a[0] == b[0] && IsSubsequence(a[1..], b[1..])) || IsSubsequence(a, b[1..])))
  }

  /** Filtering keeps the order of what it keeps. */
  lemma {:induction false} FilterIsSubsequence<T>(f: T -> bool, s: seq<T>)
    ensures IsSubsequence(Filter(f, s), s)
  {
    if s != [] {
      FilterIsSubsequence(f, s[1..]);
      var r := Filter(f, s);
      if f(s[0]) {
        assert r[0] == s[0] && r[1..] == Filter(f, s[1..]);
      } else if r != [] {
        assert r == Filter(f, s[1..]);
      }
    }
  }

  /** Filtering keeps every occurrence of what it keeps and no occurrence of the rest. */
  lemma {:induction false} FilterMultiplicity<T>(f: T -> bool, s: seq<T>, x: T)
    ensures multiset(Filter(f, s))[x] == if f(x) then multiset(s)[x] else 0
  {
    if s != [] {
      FilterMultiplicity(f, s[1..], x);
      assert s == [s[0]] + s[1..];
      assert multiset(s) == multiset{s[0]} + multiset(s[1..]);
      if f(s[0]) {
        assert multiset(Filter(f, s)) == multiset{s[0]} + multiset(Filter(f, s[1..]));
      }
    }
  }

  /** Filtering drops something exactly when some element fails `f`. */
  lemma {:induction false} FilterShrinks<T>(f: T -> bool, s: seq<T>)
    ensures |Filter(f, s)| < |s| <==> exists i :: 0 <= i < |s| && !f(s[i])
  {
    if s != [] {
      FilterShrinks(f, s[1..]);
      if exists i :: 0 <= i < |s| - 1 && !f(s[1..][i]) {
        var i :| 0 <= i < |s| - 1 && !f(s[1..][i]);
        assert !f(s[i + 1]);
      }
      if exists i :: 0 <= i < |s| && !f(s[i]) {
        var i :| 0 <= i < |s| && !f(s[i]);
        if i > 0 { assert !f(s[1..][i - 1]); }
      }
    }
  }

  /** When every element passes, filtering returns the sequence itself. */
  lemma {:induction false} FilterAll<T>(f: T -> bool, s: seq<T>)
    requires forall i :: 0 <= i < |s| ==> f(s[i])
    ensures Filter(f, s) == s
  {
    if s != [] {
      FilterAll(f, s[1..]);
      assert s == [s[0]] + s[1..];
    }
  }

  /** Filtering never introduces two elements with the same `g`. */
  lemma {:induction false} FilterDistinct<T, K>(f: T -> bool, g: T -> K, s: seq<T>)
    requires DistinctBy(g, s)
    ensures DistinctBy(g, Filter(f, s))
  {
    if s != [] {
      FilterDistinct(f, g, s[1..]);
      var rest := Filter(f, s[1..]);
      if f(s[0]) {
        forall j | 0 <= j < |rest| ensures g(s[0]) != g(rest[j]) {
          var k :| 0 <= k < |s[1..]| && s[1..][k] == rest[j];
          assert s[k + 1] == rest[j];
        }
      }
    }
  }

  /**
   * What `s.filter(f)` returns: only elements that pass, every element that
   * passes as often as it occurs in `s`, and in the order of `s`.
   */
  lemma FilterExact<T>(f: T -> bool, s: seq<T>)
    ensures forall i :: 0 <= i < |Filter(f, s)| ==> f(Filter(f, s)[i])
    ensures forall x :: f(x) ==> multiset(Filter(f, s))[x] == multiset(s)[x]
    ensures IsSubsequence(Filter(f, s), s)
  {
    FilterIsSubsequence(f, s);
    forall x | f(x) ensures multiset(Filter(f, s))[x] == multiset(s)[x] {
      FilterMultiplicity(f, s, x);
    }
  }

  /** `s` is ordered by `key`, largest first. */
  ghost predicate SortedDesc<T>(key: T -> int, s: seq<T>) {
    forall i, j :: 0 <= i < j < |s| ==> key(s[i]) >= key(s[j])
  }

  /** No two elements of `s` share the same `g`. */
  ghost predicate DistinctBy<T, K>(g: T -> K, s: seq<T>) {
    forall i, j :: 0 <= i < j < |s| ==> g(s[i]) != g(s[j])
  }

  /**
   * Puts `e` in front of the first element whose key is not larger than
   * its own, so that `e` stays ahead of later elements with an equal key.
   */
  function Insert<T>(key: T -> int, e: T, t: seq<T>): (r: seq<T>)
    ensures |r| == |t| + 1
    ensures multiset(r) == multiset(t) + multiset{e}
  {
    if t == [] then [e]
    else if key(e) >= key(t[0]) then [e] + t
    else
      assert t == [t[0]] + t[1..];
      [t[0]] + Insert(key, e, t[1..])
  }

  /** A stable sort by `key`, largest first (`s.sort((a, b) => key(b) - key(a))`). */
  function SortDesc<T>(key: T -> int, s: seq<T>): (r: seq<T>)
    ensures |r| == |s|
    ensures multiset(r) == multiset(s)
  {
    if s == [] then [] else
      var rest := SortDesc(key, s[1..]);
      assert s == [s[0]] + s[1..];
      assert multiset(s) == multiset(s[1..]) + multiset{s[0]};
      Insert(key, s[0], rest)
  }

  lemma {:induction false} InsertSorted<T>(key: T -> int, e: T, t: seq<T>)
    requires SortedDesc(key, t)
    ensures SortedDesc(key, Insert(key, e, t))
  {
    if t != [] && key(e) < key(t[0]) {
      var rest := Insert(key, e, t[1..]);
      InsertSorted(key, e, t[1..]);
      forall x | x in rest ensures key(t[0]) >= key(x) {
        assert x in multiset(rest);
        if x != e {
          assert x in multiset(t[1..]);
          var k :| 0 <= k < |t[1..]| && t[1..][k] == x;
          assert t[k + 1] == x;
        }
      }
      ConsSorted(key, t[0], rest);
    }
  }

  /** Putting in front an element that ranks at least as high as all the others keeps a sequence ordered. */
  lemma ConsSorted<T>(key: T -> int, a: T, rest: seq<T>)
    requires SortedDesc(key, rest)
    requires forall x :: x in rest ==> key(a) >= key(x)
    ensures SortedDesc(key, [a] + rest)
  {
    var r := [a] + rest;
    forall i, j | 0 <= i < j < |r| ensures key(r[i]) >= key(r[j]) {
      assert r[j] == rest[j - 1];
      if i > 0 {
        assert r[i] == rest[i - 1];
      }
    }
  }

  /** The sort's result is ordered, largest key first. */
  lemma {:induction false} SortDescSorted<T>(key: T -> int, s: seq<T>)
    ensures SortedDesc(key, SortDesc(key, s))
  {
    if s != [] {
      SortDescSorted(key, s[1..]);
      InsertSorted(key, s[0], SortDesc(key, s[1..]));
    }
  }

  lemma {:induction false} InsertDistinct<T, K>(key: T -> int, g: T -> K, e: T, t: seq<T>)
    requires DistinctBy(g, t)
    requires forall x :: x in t ==> g(x) != g(e)
    ensures DistinctBy(g, Insert(key, e, t))
  {
    if t != [] && key(e) < key(t[0]) {
      var rest := Insert(key, e, t[1..]);
      InsertDistinct(key, g, e, t[1..]);
      forall x | x in rest ensures g(t[0]) != g(x) {
        assert x in multiset(rest);
        if x != e {
          assert x in multiset(t[1..]);
          var k :| 0 <= k < |t[1..]| && t[1..][k] == x;
          assert t[k + 1] == x;
        }
      }
    }
  }

  /** Sorting never introduces two elements with the same `g`. */
  lemma {:induction false} SortDescDistinct<T, K>(key: T -> int, g: T -> K, s: seq<T>)
    requires DistinctBy(g, s)
    ensures DistinctBy(g, SortDesc(key, s))
  {
    if s != [] {
      var tail := SortDesc(key, s[1..]);
      SortDescDistinct(key, g, s[1..]);
      forall x | x in tail ensures g(x) != g(s[0]) {
        assert x in multiset(s[1..]);
        var k :| 0 <= k < |s[1..]| && s[1..][k] == x;
        assert s[k + 1] == x;
      }
      InsertDistinct(key, g, s[0], tail);
    }
  }

  /** At most the first `n` elements of `s` (`s.slice(0, n)`). */
  function Take<T>(s: seq<T>, n: nat): (r: seq<T>)
    ensures |r| <= n && |r| <= |s| && r == s[..|r|]
    ensures |s| <= n ==> r == s
    ensures |s| > n ==> |r| == n
  {
    if |s| <= n then s else s[..n]
  }

  /**
   * Cutting an ordered sequence short keeps it ordered and drops nothing
   * that ranks above what it keeps.
   */
  lemma TakeSorted<T>(key: T -> int, s: seq<T>, n: nat)
    requires SortedDesc(key, s)
    ensures SortedDesc(key, Take(s, n))
    ensures multiset(Take(s, n)) <= multiset(s)
    ensures forall e :: e in multiset(s) - multiset(Take(s, n)) ==>
              forall k :: 0 <= k < |Take(s, n)| ==> key(Take(s, n)[k]) >= key(e)
  {
    var r := Take(s, n);
    var rest := s[|r|..];
    assert s == r + rest;
    assert multiset(s) == multiset(r) + multiset(rest);
    forall e | e in multiset(s) - multiset(r) ensures forall k :: 0 <= k < |r| ==> key(r[k]) >= key(e) {
      assert e in multiset(rest);
      var m :| 0 <= m < |rest| && rest[m] == e;
      assert s[|r| + m] == e;
    }
  }

  /** In an ordered sequence, an element that ranks strictly above all others comes first. */
  lemma SortedHead<T>(key: T -> int, s: seq<T>, x: T)
    requires SortedDesc(key, s)
    requires x in s
    requires forall k :: 0 <= k < |s| && s[k] != x ==> key(s[k]) < key(x)
    ensures s[0] == x
  {
    var m :| 0 <= m < |s| && s[m] == x;
  }

  /** Sorting puts first an element that ranks strictly above all the others. */
  lemma SortDescHead<T>(key: T -> int, s: seq<T>, x: T)
    requires x in s
    requires forall k :: 0 <= k < |s| && s[k] != x ==> key(s[k]) < key(x)
    ensures SortDesc(key, s) != [] && SortDesc(key, s)[0] == x
  {
    var r := SortDesc(key, s);
    SortDescSorted(key, s);
    assert x in multiset(r);
    forall k | 0 <= k < |r| && r[k] != x ensures key(r[k]) < key(x) {
      assert r[k] in multiset(s);
    }
    SortedHead(key, r, x);
  }
}
