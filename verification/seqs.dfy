/**
 * Sequence operations used by the analytics code: `new Set(...)` order of
 * first occurrences, `filter`, `slice(0, n)` and the stable
 * `Array.prototype.sort` with a numeric comparator.
 */
module Seqs {

  datatype Option<T> = None | Some(value: T)

  predicate Distinct<T(==)>(s: seq<T>) {
    forall i, j :: 0 <= i < j < |s| ==> s[i] != s[j]
  }

  /** Dropping the last element keeps a sequence duplicate-free, and the last
      element is none of the others. */
  lemma DistinctInit<T>(s: seq<T>)
    requires Distinct(s) && |s| > 0
    ensures Distinct(s[..|s| - 1])
    ensures forall i :: 0 <= i < |s| - 1 ==> s[i] != s[|s| - 1]
  {
  }

  /** Position of the first occurrence of `x` in `s`. */
  function FirstIndex<T(==)>(s: seq<T>, x: T): (k: nat)
    requires x in s
    ensures k < |s| && s[k] == x
    ensures forall i :: 0 <= i < k ==> s[i] != x
  {
    if s[0] == x then 0 else 1 + FirstIndex(s[1..], x)
  }

  lemma {:induction false} FirstIndexOfPrefix<T>(s: seq<T>, n: nat, x: T)
    requires n <= |s| && x in s[..n]
    ensures x in s && FirstIndex(s, x) == FirstIndex(s[..n], x)
  {
    if s[0] != x {
      assert s[1..][..n - 1] == s[..n][1..];
      FirstIndexOfPrefix(s[1..], n - 1, x);
    }
  }

  lemma FirstIndexOfNew<T>(s: seq<T>, x: T)
    requires x !in s
    ensures x in s + [x] && FirstIndex(s + [x], x) == |s|
  {
    assert forall i :: 0 <= i < |s| ==> (s + [x])[i] != x;
  }

  /** `Array.from(new Set(s))`: every element once, at the place of its first
      occurrence. */
  function Dedup<T(==)>(s: seq<T>): (r: seq<T>)
    ensures Distinct(r)
    ensures forall i :: 0 <= i < |r| ==> r[i] in s
    ensures forall i :: 0 <= i < |s| ==> s[i] in r
    ensures forall i, j :: 0 <= i < j < |r| ==> FirstIndex(s, r[i]) < FirstIndex(s, r[j])
  {
    if s == [] then []
    else
      var init := s[..|s| - 1];
      var d := Dedup(init);
      var x := s[|s| - 1];
      assert s == init + [x];
      forall y | y in d ensures FirstIndex(s, y) == FirstIndex(init, y) {
        FirstIndexOfPrefix(s, |s| - 1, y);
      }
      if x in d then d
      else
        FirstIndexOfNew(init, x);
        forall y | y in d ensures FirstIndex(s, y) < FirstIndex(s, x) {
          FirstIndexOfPrefix(s, |s| - 1, y);
        }
        d + [x]
  }

  /** `s.filter(p)`. */
  function Filter<T>(s: seq<T>, p: T -> bool): (r: seq<T>)
    ensures |r| <= |s|
    ensures forall i :: 0 <= i < |r| ==> r[i] in s && p(r[i])
    ensures forall i :: 0 <= i < |s| && p(s[i]) ==> s[i] in r
  {
    if s == [] then []
    else (if p(s[0]) then [s[0]] else []) + Filter(s[1..], p)
  }

  lemma {:induction false} FilterConcat<T>(a: seq<T>, b: seq<T>, p: T -> bool)
    ensures Filter(a + b, p) == Filter(a, p) + Filter(b, p)
  {
    if a == [] {
      assert a + b == b;
    } else {
      assert (a + b)[0] == a[0];
      assert (a + b)[1..] == a[1..] + b;
      FilterConcat(a[1..], b, p);
    }
  }

  /** Filtering a sequence with one more element at its end. */
  lemma FilterSnoc<T>(s: seq<T>, p: T -> bool)
    requires |s| > 0
    ensures |Filter(s, p)| == |Filter(s[..|s| - 1], p)| + (if p(s[|s| - 1]) then 1 else 0)
  {
    var init, last := s[..|s| - 1], s[|s| - 1];
    assert s == init + [last];
    FilterConcat(init, [last], p);
    assert [last][1..] == [];
  }

  /** Filtering keeps the elements in their relative order. */
  lemma {:induction false} FilterIncreasing<T>(s: seq<T>, p: T -> bool, rank: T -> int)
    requires forall i, j :: 0 <= i < j < |s| ==> rank(s[i]) < rank(s[j])
    ensures forall i, j :: 0 <= i < j < |Filter(s, p)| ==> rank(Filter(s, p)[i]) < rank(Filter(s, p)[j])
  {
    if s != [] {
      var rest := Filter(s[1..], p);
      FilterIncreasing(s[1..], p, rank);
      forall j | 0 <= j < |rest| ensures rank(s[0]) < rank(rest[j]) {
        assert rest[j] in s[1..];
        var n :| 0 <= n < |s| - 1 && s[1..][n] == rest[j];
        assert s[n + 1] == rest[j];
      }
      var head := if p(s[0]) then [s[0]] else [];
      assert Filter(s, p) == head + rest;
    }
  }

  /** `s.slice(0, n)`, and `s.substring(0, n)`, for a non-negative `n`. */
  function Take<T>(s: seq<T>, n: nat): (r: seq<T>)
    ensures |r| == if n < |s| then n else |s|
    ensures r <= s
  {
    if n < |s| then s[..n] else s
  }

  /** `s.slice(0, end)`: a negative `end` counts back from the end of `s`. */
  function SliceTo<T>(s: seq<T>, end: int): (r: seq<T>)
    ensures r <= s
    ensures |r| == if end < 0 then (if |s| + end < 0 then 0 else |s| + end) else (if end < |s| then end else |s|)
  {
    if end < 0 then s[..if |s| + end < 0 then 0 else |s| + end] else Take(s, end)
  }

  predicate SortedBy<T>(s: seq<T>, key: T -> real) {
    forall i, j :: 0 <= i < j < |s| ==> key(s[i]) <= key(s[j])
  }

  /** The elements of `s` whose key is `v`, in their order in `s`. */
  function KeyClass<T>(s: seq<T>, key: T -> real, v: real): seq<T> {
    if s == [] then []
    else KeyClass(s[..|s| - 1], key, v) + (if key(s[|s| - 1]) == v then [s[|s| - 1]] else [])
  }

  /** Places `x` after every element of the sorted `s` whose key is not
      greater than its own. */
  function InsertBy<T(==)>(s: seq<T>, x: T, key: T -> real): (r: seq<T>)
    requires SortedBy(s, key)
    ensures SortedBy(r, key)
    ensures multiset(r) == multiset(s) + multiset{x}
  {
    if s == [] || key(s[|s| - 1]) <= key(x) then
      s + [x]
    else
      var init, y := s[..|s| - 1], s[|s| - 1];
      assert s == init + [y];
      var t := InsertBy(init, x, key);
      forall z | z in t ensures key(z) <= key(y) {
        assert z in multiset(t);
      }
      t + [y]
  }

  lemma KeyClassSnoc<T>(s: seq<T>, x: T, key: T -> real, v: real)
    ensures KeyClass(s + [x], key, v) == KeyClass(s, key, v) + (if key(x) == v then [x] else [])
  {
    assert (s + [x])[..|s|] == s;
  }

  lemma {:induction false} InsertByKeyClass<T>(s: seq<T>, x: T, key: T -> real, v: real)
    requires SortedBy(s, key)
    ensures KeyClass(InsertBy(s, x, key), key, v) == KeyClass(s, key, v) + (if key(x) == v then [x] else [])
  {
    if s == [] || key(s[|s| - 1]) <= key(x) {
      KeyClassSnoc(s, x, key, v);
    } else {
      var init, y := s[..|s| - 1], s[|s| - 1];
      var t := InsertBy(init, x, key);
      assert s == init + [y];
      InsertByKeyClass(init, x, key, v);
      KeyClassSnoc(t, y, key, v);
      KeyClassSnoc(init, y, key, v);
      var xs := if key(x) == v then [x] else [];
      var ys := if key(y) == v then [y] else [];
      assert xs == [] || ys == [];
      assert KeyClass(init, key, v) + xs + ys == KeyClass(init, key, v) + ys + xs;
    }
  }

  /** `s.sort((a, b) => key(a) - key(b))`: `Array.prototype.sort` is stable, so
      elements with equal keys keep their relative order. */
  function SortBy<T(==)>(s: seq<T>, key: T -> real): (r: seq<T>)
    ensures SortedBy(r, key)
    ensures multiset(r) == multiset(s)
    ensures forall v :: KeyClass(r, key, v) == KeyClass(s, key, v)
  {
    if s == [] then []
    else
      var init, x := s[..|s| - 1], s[|s| - 1];
      assert s == init + [x];
      var t := SortBy(init, key);
      forall v ensures KeyClass(InsertBy(t, x, key), key, v) == KeyClass(s, key, v) {
        InsertByKeyClass(t, x, key, v);
      }
      InsertBy(t, x, key)
  }

  /** Sortedness and equal key classes determine the stable sort: no other
      arrangement of `s` has both. */
  lemma {:induction false} StableSortUnique<T>(s: seq<T>, r: seq<T>, key: T -> real)
    requires SortedBy(r, key)
    requires forall v :: KeyClass(r, key, v) == KeyClass(s, key, v)
    ensures r == SortBy(s, key)
  {
    var q := SortBy(s, key);
    SortedKeyClassesDetermine(r, q, key);
  }

  lemma {:induction false} SortedKeyClassesDetermine<T>(r: seq<T>, q: seq<T>, key: T -> real)
    requires SortedBy(r, key) && SortedBy(q, key)
    requires forall v :: KeyClass(r, key, v) == KeyClass(q, key, v)
    ensures r == q
    decreases |r| + |q|
  {
    if r == [] && q == [] {
    } else if q == [] {
      KeyClassOfLast(r, key);
      assert false;
    } else if r == [] {
      KeyClassOfLast(q, key);
      assert false;
    } else {
      var a, b := r[|r| - 1], q[|q| - 1];
      var r', q' := r[..|r| - 1], q[..|q| - 1];
      if key(a) < key(b) {
        KeyClassBounded(r, key, key(b));
        assert false;
      } else if key(b) < key(a) {
        KeyClassBounded(q, key, key(a));
        assert false;
      } else {
        var ca := KeyClass(r, key, key(a));
        assert ca == KeyClass(r', key, key(a)) + [a];
        assert ca == KeyClass(q', key, key(a)) + [b];
        assert a == ca[|ca| - 1] == b;
        forall v ensures KeyClass(r', key, v) == KeyClass(q', key, v) {
          if v == key(a) {
            var cr, cq := KeyClass(r', key, v), KeyClass(q', key, v);
            assert KeyClass(r, key, v) == cr + [a];
            assert KeyClass(q, key, v) == cq + [a];
            assert cr == (cr + [a])[..|cr|];
            assert cq == (cq + [a])[..|cq|];
          } else {
            assert KeyClass(r, key, v) == KeyClass(r', key, v);
            assert KeyClass(q, key, v) == KeyClass(q', key, v);
          }
        }
        SortedKeyClassesDetermine(r', q', key);
      }
    }
  }

  lemma KeyClassOfLast<T>(s: seq<T>, key: T -> real)
    requires s != []
    ensures KeyClass(s, key, key(s[|s| - 1])) != []
  {
  }

  /** In a sorted sequence whose last key is below `v`, no element has key `v`. */
  lemma {:induction false} KeyClassBounded<T>(s: seq<T>, key: T -> real, v: real)
    requires SortedBy(s, key)
    requires s == [] || key(s[|s| - 1]) < v
    ensures KeyClass(s, key, v) == []
  {
    if s != [] {
      KeyClassBounded(s[..|s| - 1], key, v);
    }
  }

  /** The first `n` of a stable sort are elements of the input, and distinct
      when the input is. */
  lemma RankedFrom<T>(u: seq<T>, key: T -> real, n: nat)
    ensures forall i :: 0 <= i < |Take(SortBy(u, key), n)| ==> Take(SortBy(u, key), n)[i] in u
    ensures Distinct(u) ==> Distinct(Take(SortBy(u, key), n))
  {
    var s := SortBy(u, key);
    forall i | 0 <= i < |Take(s, n)| ensures Take(s, n)[i] in u {
      assert Take(s, n)[i] == s[i];
      assert s[i] in multiset(s);
    }
    if Distinct(u) {
      PermutationDistinct(u, s);
    }
  }

  /** A reordering of a duplicate-free sequence is duplicate free. */
  lemma PermutationDistinct<T>(s: seq<T>, r: seq<T>)
    requires Distinct(s) && multiset(s) == multiset(r)
    ensures Distinct(r)
  {
    forall i, j | 0 <= i < j < |r| ensures r[i] != r[j] {
      if r[i] == r[j] {
        assert r == r[..j] + [r[j]] + r[j + 1..];
        assert r[i] in multiset(r[..j]);
        assert multiset(r)[r[j]] >= 2;
        DistinctAtMostOnce(s, r[j]);
        assert false;
      }
    }
  }

  lemma {:induction false} DistinctAtMostOnce<T>(s: seq<T>, x: T)
    requires Distinct(s)
    ensures multiset(s)[x] <= 1
  {
    if s != [] {
      var init := s[..|s| - 1];
      assert s == init + [s[|s| - 1]];
      DistinctAtMostOnce(init, x);
      if s[|s| - 1] == x {
        assert x !in init;
      }
    }
  }

  /** The elements of a prefix with key `v` are a prefix of those of the whole. */
  lemma {:induction false} KeyClassOfPrefix<T>(s: seq<T>, key: T -> real, v: real, n: nat)
    requires n <= |s|
    ensures KeyClass(s[..n], key, v) <= KeyClass(s, key, v)
  {
    if n < |s| {
      var init := s[..|s| - 1];
      assert s[..n] == init[..n];
      KeyClassOfPrefix(init, key, v, n);
    } else {
      assert s[..n] == s;
    }
  }

  /** The values `f` gives for the elements of `s`, skipping the elements it
      gives none for, in order. */
  function Gather<T, U>(s: seq<T>, f: T -> Option<U>): seq<U> {
    if s == [] then []
    else Gather(s[..|s| - 1], f) + (if f(s[|s| - 1]).Some? then [f(s[|s| - 1]).value] else [])
  }

  lemma GatherSnoc<T, U>(s: seq<T>, f: T -> Option<U>, i: nat)
    requires i < |s|
    ensures Gather(s[..i + 1], f) == Gather(s[..i], f) + (if f(s[i]).Some? then [f(s[i]).value] else [])
  {
    assert s[..i + 1][..i] == s[..i];
  }

  /** The elements `f` gives a value for. */
  function Kept<T, U>(s: seq<T>, f: T -> Option<U>): seq<T> {
    Filter(s, (x: T) => f(x).Some?)
  }

  /** `Gather` gives one value per kept element, in the same order. */
  lemma {:induction false} GatherKept<T, U>(s: seq<T>, f: T -> Option<U>)
    ensures |Gather(s, f)| == |Kept(s, f)|
    ensures forall i :: 0 <= i < |Gather(s, f)| ==> f(Kept(s, f)[i]) == Some(Gather(s, f)[i])
  {
    if s != [] {
      var init, last := s[..|s| - 1], s[|s| - 1];
      GatherKept(init, f);
      assert s == init + [last];
      FilterConcat(init, [last], (x: T) => f(x).Some?);
      assert [last][1..] == [];
    }
  }

  /** When `f` gives a value for every element, `Gather` gives them all. */
  lemma {:induction false} GatherAll<T, U>(s: seq<T>, f: T -> Option<U>)
    requires forall i :: 0 <= i < |s| ==> f(s[i]).Some?
    ensures |Gather(s, f)| == |s|
    ensures forall i :: 0 <= i < |s| ==> Gather(s, f)[i] == f(s[i]).value
  {
    if s != [] {
      GatherAll(s[..|s| - 1], f);
    }
  }

  /** A stable sort keeps exactly the elements of its input. */
  lemma SortByMembers<T>(s: seq<T>, key: T -> real)
    ensures forall i :: 0 <= i < |SortBy(s, key)| ==> SortBy(s, key)[i] in s
    ensures forall i :: 0 <= i < |s| ==> s[i] in SortBy(s, key)
  {
    var r := SortBy(s, key);
    forall i | 0 <= i < |r| ensures r[i] in s {
      assert r[i] in multiset(r);
    }
    forall i | 0 <= i < |s| ensures s[i] in r {
      assert s[i] in multiset(s);
    }
  }
}
