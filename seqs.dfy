/**
 * Sequence operations behind MongoDB's `find` (filter), `$sum` and `.sort`,
 * and JavaScript's `reduce`/`filter`: a filter, a real-valued sum and a
 * stable insertion sort by a numeric key, with the facts the queries need.
 */
module Seqs {
  import opened Wrappers

  /** Sum of `f` over the elements of `s`, in order. */
  function SumBy<T>(s: seq<T>, f: T -> real): real
  {
    if s == [] then 0.0 else f(s[0]) + SumBy(s[1..], f)
  }

  lemma {:induction false} SumByAppend<T>(a: seq<T>, b: seq<T>, f: T -> real)
    ensures SumBy(a + b, f) == SumBy(a, f) + SumBy(b, f)
  {
    if a == [] {
      assert a + b == b;
    } else {
      assert (a + b)[1..] == a[1..] + b;
      SumByAppend(a[1..], b, f);
    }
  }

  lemma {:induction false} SumByNonNegative<T>(s: seq<T>, f: T -> real)
    requires forall i :: 0 <= i < |s| ==> f(s[i]) >= 0.0
    ensures SumBy(s, f) >= 0.0
  {
    if s != [] {
      SumByNonNegative(s[1..], f);
    }
  }

  /** Reordering does not change a sum. */
  lemma {:induction false} SumByPermutation<T>(a: seq<T>, b: seq<T>, f: T -> real)
    requires multiset(a) == multiset(b)
    ensures SumBy(a, f) == SumBy(b, f)
    decreases |a|
  {
    if a == [] {
      assert |b| == |multiset(b)| == 0;
    } else {
      var x := a[0];
      assert x in multiset(b);
      var k :| 0 <= k < |b| && b[k] == x;
      var rest := b[..k] + b[k + 1..];
      assert b == b[..k] + [x] + b[k + 1..];
      assert multiset(a[1..]) == multiset(rest) by {
        assert a == [x] + a[1..];
        assert multiset(a) == multiset{x} + multiset(a[1..]);
        assert multiset(b) == multiset(b[..k]) + multiset{x} + multiset(b[k + 1..]);
        assert multiset(rest) == multiset(b[..k]) + multiset(b[k + 1..]);
        forall y ensures multiset(a[1..])[y] == multiset(rest)[y] {
          assert multiset(a)[y] == multiset(b)[y];
        }
      }
      SumByPermutation(a[1..], rest, f);
      SumByAppend(b[..k] + [x], b[k + 1..], f);
      SumByAppend(b[..k], [x], f);
      SumByAppend(b[..k], b[k + 1..], f);
    }
  }

  /** `f` applied to every element, built from the back as a loop of `push`es builds it. */
  function MapBack<T, U>(s: seq<T>, f: T -> U): (r: seq<U>)
    ensures |r| == |s|
    ensures forall i :: 0 <= i < |s| ==> r[i] == f(s[i])
  {
    if s == [] then []
    else
      var init := s[..|s| - 1];
      assert forall i :: 0 <= i < |init| ==> init[i] == s[i];
      MapBack(init, f) + [f(s[|s| - 1])]
  }

  /** The elements of `s` that satisfy `p`, in their original order. */
  function Filter<T>(s: seq<T>, p: T -> bool): (r: seq<T>)
    ensures |r| <= |s|
    ensures forall i :: 0 <= i < |r| ==> r[i] in s && p(r[i])
    ensures forall i :: 0 <= i < |s| && p(s[i]) ==> s[i] in r
  {
    if s == [] then [] else (if p(s[0]) then [s[0]] else []) + Filter(s[1..], p)
  }

  lemma {:induction false} FilterMultiset<T>(s: seq<T>, p: T -> bool, x: T)
    ensures multiset(Filter(s, p))[x] == if p(x) then multiset(s)[x] else 0
  {
    if s != [] {
      FilterMultiset(s[1..], p, x);
      assert s == [s[0]] + s[1..];
    }
  }

  lemma {:induction false} FilterAll<T>(s: seq<T>, p: T -> bool)
    requires forall i :: 0 <= i < |s| ==> p(s[i])
    ensures Filter(s, p) == s
  {
    if s != [] {
      FilterAll(s[1..], p);
    }
  }

  /** Sum of `f` over the elements that satisfy `p`, i.e. the sum of a filter. */
  lemma {:induction false} SumByFilterSplit<T>(s: seq<T>, p: T -> bool, f: T -> real)
    ensures SumBy(s, f) == SumBy(Filter(s, p), f) + SumBy(Filter(s, x => !p(x)), f)
  {
    if s != [] {
      SumByFilterSplit(s[1..], p, f);
      var a := if p(s[0]) then [s[0]] else [];
      var b := if !p(s[0]) then [s[0]] else [];
      SumByAppend(a, Filter(s[1..], p), f);
      SumByAppend(b, Filter(s[1..], x => !p(x)), f);
    }
  }

  /** Descending by `key`: the order `.sort({field: -1})` and `$sort: {field: -1}` produce. */
  predicate SortedDesc<T>(s: seq<T>, key: T -> real)
  {
    forall i, j :: 0 <= i < j < |s| ==> key(s[i]) >= key(s[j])
  }

  function Insert<T>(x: T, s: seq<T>, key: T -> real): (r: seq<T>)
    ensures |r| == |s| + 1
    ensures multiset(r) == multiset(s) + multiset{x}
  {
    if s == [] || key(x) >= key(s[0]) then [x] + s
    else
      assert s == [s[0]] + s[1..];
      [s[0]] + Insert(x, s[1..], key)
  }

  lemma {:induction false} InsertSorted<T>(x: T, s: seq<T>, key: T -> real)
    requires SortedDesc(s, key)
    ensures SortedDesc(Insert(x, s, key), key)
  {
    if s != [] && key(x) < key(s[0]) {
      var t := s[1..];
      InsertSorted(x, t, key);
      var r := Insert(x, t, key);
      forall k | 0 <= k < |r|
        ensures key(s[0]) >= key(r[k])
      {
        assert r[k] in multiset(r);
        if r[k] != x {
          assert r[k] in multiset(t);
          var j :| 0 <= j < |t| && t[j] == r[k];
          assert s[j + 1] == t[j];
        }
      }
    }
  }

  /** A stable sort, newest/largest first; MongoDB leaves the order of ties open. */
  function SortDesc<T>(s: seq<T>, key: T -> real): (r: seq<T>)
    ensures |r| == |s|
    ensures multiset(r) == multiset(s)
    ensures SortedDesc(r, key)
  {
    if s == [] then []
    else
      assert s == [s[0]] + s[1..];
      var rest := SortDesc(s[1..], key);
      InsertSorted(s[0], rest, key);
      Insert(s[0], rest, key)
  }

  /** The number of elements satisfying `p`. */
  function CountWhere<T>(s: seq<T>, p: T -> bool): (n: nat)
    ensures n <= |s|
    ensures n == |Filter(s, p)|
  {
    if s == [] then 0 else (if p(s[0]) then 1 else 0) + CountWhere(s[1..], p)
  }

  /** No element occurs twice. */
  predicate Distinct<T(==)>(s: seq<T>)
  {
    forall i, j :: 0 <= i < j < |s| ==> s[i] != s[j]
  }

  lemma {:induction false} DistinctOnce<T>(s: seq<T>, x: T)
    requires Distinct(s)
    ensures multiset(s)[x] <= 1
  {
    if s != [] {
      assert s == [s[0]] + s[1..];
      DistinctOnce(s[1..], x);
      if x == s[0] {
        assert x !in s[1..] by {
          forall k | 0 <= k < |s[1..]| ensures s[1..][k] != x {
            assert s[1..][k] == s[k + 1];
          }
        }
      }
    }
  }

  lemma {:induction false} OnceDistinct<T>(t: seq<T>)
    requires forall i :: 0 <= i < |t| ==> multiset(t)[t[i]] <= 1
    ensures Distinct(t)
  {
    if t != [] {
      var rest := t[1..];
      assert t == [t[0]] + rest;
      assert multiset(t) == multiset{t[0]} + multiset(rest);
      forall i | 0 <= i < |rest| ensures multiset(rest)[rest[i]] <= 1 {
        assert rest[i] == t[i + 1];
      }
      OnceDistinct(rest);
      assert multiset(rest)[t[0]] == 0;
      forall j | 0 < j < |t| ensures t[0] != t[j] {
        assert t[j] == rest[j - 1];
        assert t[j] in multiset(rest);
      }
    }
  }

  /** A reordering of a sequence without repetitions has none either. */
  lemma DistinctPermutation<T>(s: seq<T>, t: seq<T>)
    requires multiset(s) == multiset(t)
    requires Distinct(s)
    ensures Distinct(t)
  {
    forall i | 0 <= i < |t| ensures multiset(t)[t[i]] <= 1 {
      DistinctOnce(s, t[i]);
    }
    OnceDistinct(t);
  }

  /** Index of the first element satisfying `p` (`findOne` in natural order, `Array.prototype.find`). */
  function FirstWhere<T>(s: seq<T>, p: T -> bool): (r: Option<nat>)
    ensures r.Some? ==> r.value < |s| && p(s[r.value]) && forall j :: 0 <= j < r.value ==> !p(s[j])
    ensures r.None? ==> forall j :: 0 <= j < |s| ==> !p(s[j])
  {
    if s == [] then None
    else if p(s[0]) then Some(0)
    else
      match FirstWhere(s[1..], p)
      case None => None
      case Some(i) => Some(i + 1)
  }
}
