/**
 * The array operations the review code takes from the JavaScript library:
 * `filter`, and the stable `sort` with a numeric comparator (ascending by a
 * key; a descending comparator `b - a` is the ascending sort by the negated
 * key).
 */
module Seqs {

  /** `s.filter(p)`: the elements satisfying `p`, in their original order. */
  function Filter<T>(s: seq<T>, p: T -> bool): (r: seq<T>)
    ensures |r| <= |s|
    decreases |s|
  {
    if s == [] then []
    else Filter(s[..|s| - 1], p) + (if p(s[|s| - 1]) then [s[|s| - 1]] else [])
  }

  /** Filtering one more element of a prefix appends it when it passes. */
  lemma FilterPrefixStep<T>(s: seq<T>, n: nat, p: T -> bool)
    requires n < |s|
    ensures Filter(s[..n + 1], p) == Filter(s[..n], p) + (if p(s[n]) then [s[n]] else [])
  {
    assert s[..n + 1][..n] == s[..n];
  }

  /** Extending a prefix by one element appends that element. */
  lemma AppendPrefix<T>(a: seq<T>, s: seq<T>, j: nat)
    requires j < |s|
    ensures a + s[..j + 1] == a + s[..j] + [s[j]]
  {
    assert s[..j + 1] == s[..j] + [s[j]];
  }

  /** Filtering keeps every copy of a satisfying element and no copy of any other. */
  lemma {:induction false} FilterMultiset<T>(s: seq<T>, p: T -> bool, x: T)
    ensures multiset(Filter(s, p))[x] == if p(x) then multiset(s)[x] else 0
    decreases |s|
  {
    if s != [] {
      FilterMultiset(s[..|s| - 1], p, x);
      assert s == s[..|s| - 1] + [s[|s| - 1]];
    }
  }

  /** An element is kept exactly when it occurs and satisfies the predicate. */
  lemma FilterIn<T>(s: seq<T>, p: T -> bool, x: T)
    ensures x in Filter(s, p) <==> x in s && p(x)
  {
    FilterMultiset(s, p, x);
    assert x in Filter(s, p) <==> x in multiset(Filter(s, p));
    assert x in s <==> x in multiset(s);
  }

  /** Filtering distributes over concatenation, so it keeps relative order. */
  lemma {:induction false} FilterConcat<T>(a: seq<T>, b: seq<T>, p: T -> bool)
    ensures Filter(a + b, p) == Filter(a, p) + Filter(b, p)
    decreases |b|
  {
    if b == [] {
      assert a + b == a;
    } else {
      assert (a + b)[..|a + b| - 1] == a + b[..|b| - 1];
      FilterConcat(a, b[..|b| - 1], p);
    }
  }

  /** A filter that every element passes changes nothing. */
  lemma {:induction false} FilterAll<T>(s: seq<T>, p: T -> bool)
    requires forall i :: 0 <= i < |s| ==> p(s[i])
    ensures Filter(s, p) == s
    decreases |s|
  {
    if s != [] {
      var init := s[..|s| - 1];
      assert forall i :: 0 <= i < |init| ==> init[i] == s[i];
      FilterAll(init, p);
      assert s == init + [s[|s| - 1]];
    }
  }

  /** Two filters in a row are one filter by the conjunction. */
  lemma {:induction false} FilterFilter<T>(s: seq<T>, p: T -> bool, q: T -> bool, pq: T -> bool)
    requires forall x :: pq(x) == (p(x) && q(x))
    ensures Filter(Filter(s, p), q) == Filter(s, pq)
    decreases |s|
  {
    if s != [] {
      var init, last := s[..|s| - 1], s[|s| - 1];
      FilterFilter(init, p, q, pq);
      FilterConcat(Filter(init, p), if p(last) then [last] else [], q);
    }
  }

  /** `key` never decreases along `s`. */
  ghost predicate SortedBy<T>(s: seq<T>, key: T -> real) {
    forall i, j :: 0 <= i < j < |s| ==> key(s[i]) <= key(s[j])
  }

  /** Filtering a sorted sequence leaves it sorted. */
  lemma {:induction false} FilterSorted<T>(s: seq<T>, p: T -> bool, key: T -> real)
    requires SortedBy(s, key)
    ensures SortedBy(Filter(s, p), key)
    decreases |s|
  {
    if s != [] {
      var init, last := s[..|s| - 1], s[|s| - 1];
      FilterSorted(init, p, key);
      var f := Filter(init, p);
      forall y | y in f ensures key(y) <= key(last) {
        FilterIn(init, p, y);
        var k :| 0 <= k < |init| && init[k] == y;
        assert s[k] == y;
      }
    }
  }

  /** The elements of `s` whose key is `v`, in order (one class of equal keys). */
  function WithKey<T>(s: seq<T>, key: T -> real, v: real): seq<T>
    decreases |s|
  {
    if s == [] then []
    else WithKey(s[..|s| - 1], key, v) + (if key(s[|s| - 1]) == v then [s[|s| - 1]] else [])
  }

  /** Inserts `x` after every element whose key is at most `x`'s. */
  function Insert<T(==)>(x: T, s: seq<T>, key: T -> real): (r: seq<T>)
    ensures |r| == |s| + 1
    decreases |s|
  {
    if s == [] then [x]
    else if key(s[|s| - 1]) <= key(x) then s + [x]
    else Insert(x, s[..|s| - 1], key) + [s[|s| - 1]]
  }

  /** Inserting adds exactly `x`. */
  lemma {:induction false} InsertPermutation<T>(x: T, s: seq<T>, key: T -> real)
    ensures multiset(Insert(x, s, key)) == multiset(s) + multiset{x}
    decreases |s|
  {
    if s != [] && key(s[|s| - 1]) > key(x) {
      var init, last := s[..|s| - 1], s[|s| - 1];
      assert s == init + [last];
      InsertPermutation(x, init, key);
    }
  }

  /** Inserting keeps a sorted sequence sorted. */
  lemma {:induction false} InsertSorted<T>(x: T, s: seq<T>, key: T -> real)
    requires SortedBy(s, key)
    ensures SortedBy(Insert(x, s, key), key)
    decreases |s|
  {
    if s != [] && key(s[|s| - 1]) > key(x) {
      var init, last := s[..|s| - 1], s[|s| - 1];
      SortedInit(s, key);
      InsertSorted(x, init, key);
      InsertPermutation(x, init, key);
      var r' := Insert(x, init, key);
      forall y | y in r' ensures key(y) <= key(last) {
        assert y in multiset(r');
        if y != x {
          assert y in multiset(init);
          var k :| 0 <= k < |init| && init[k] == y;
          assert s[k] == y;
        }
      }
    }
  }

  /** Stable ascending insertion sort by `key`, the behaviour of `Array.prototype.sort`. */
  function SortBy<T(==)>(s: seq<T>, key: T -> real): (r: seq<T>)
    decreases |s|
  {
    if s == [] then [] else Insert(s[|s| - 1], SortBy(s[..|s| - 1], key), key)
  }

  /** The sort returns a permutation of its input, ordered by key. */
  lemma {:induction false} SortBySortedPermutation<T>(s: seq<T>, key: T -> real)
    ensures |SortBy(s, key)| == |s|
    ensures multiset(SortBy(s, key)) == multiset(s)
    ensures SortedBy(SortBy(s, key), key)
    decreases |s|
  {
    if s != [] {
      SortBySortedPermutation(s[..|s| - 1], key);
      InsertPermutation(s[|s| - 1], SortBy(s[..|s| - 1], key), key);
      InsertSorted(s[|s| - 1], SortBy(s[..|s| - 1], key), key);
      assert s == s[..|s| - 1] + [s[|s| - 1]];
    }
  }

  lemma {:induction false} InsertWithKey<T>(x: T, s: seq<T>, key: T -> real, v: real)
    requires SortedBy(s, key)
    ensures WithKey(Insert(x, s, key), key, v) == WithKey(s, key, v) + (if key(x) == v then [x] else [])
    decreases |s|
  {
    if s != [] {
      var init, last := s[..|s| - 1], s[|s| - 1];
      if key(last) <= key(x) {
        WithKeyAppend(s, x, key, v);
      } else {
        SortedInit(s, key);
        InsertWithKey(x, init, key, v);
        WithKeyAppend(Insert(x, init, key), last, key, v);
      }
    }
  }

  /** The class of `v` after appending `y`: `y` joins it at the end when its key is `v`. */
  lemma WithKeyAppend<T>(s: seq<T>, y: T, key: T -> real, v: real)
    ensures WithKey(s + [y], key, v) == WithKey(s, key, v) + (if key(y) == v then [y] else [])
  {
    assert (s + [y])[..|s|] == s;
  }

  /** Dropping the last element keeps a sequence sorted. */
  lemma SortedInit<T>(s: seq<T>, key: T -> real)
    requires s != [] && SortedBy(s, key)
    ensures SortedBy(s[..|s| - 1], key)
  {
  }

  /**
   * Stability: among elements with equal keys the sort keeps input order.
   * Together with sortedness and permutation this fixes the result.
   */
  lemma {:induction false} SortByStable<T>(s: seq<T>, key: T -> real, v: real)
    ensures WithKey(SortBy(s, key), key, v) == WithKey(s, key, v)
    decreases |s|
  {
    if s != [] {
      SortByStable(s[..|s| - 1], key, v);
      SortBySortedPermutation(s[..|s| - 1], key);
      InsertWithKey(s[|s| - 1], SortBy(s[..|s| - 1], key), key, v);
    }
  }

  /** A filter that no element passes leaves nothing. */
  lemma {:induction false} FilterNone<T>(s: seq<T>, p: T -> bool)
    requires forall i :: 0 <= i < |s| ==> !p(s[i])
    ensures Filter(s, p) == []
    decreases |s|
  {
    if s != [] {
      FilterNone(s[..|s| - 1], p);
    }
  }

  /** Filters by predicates that agree everywhere give the same result. */
  lemma {:induction false} FilterExt<T>(s: seq<T>, p: T -> bool, q: T -> bool)
    requires forall x :: p(x) == q(x)
    ensures Filter(s, p) == Filter(s, q)
    decreases |s|
  {
    if s != [] {
      FilterExt(s[..|s| - 1], p, q);
    }
  }

  /** The lists `f` gives for the elements of `s`, one after the other. */
  function FlatMap<T, U>(s: seq<T>, f: T -> seq<U>): seq<U>
    decreases |s|
  {
    if s == [] then [] else FlatMap(s[..|s| - 1], f) + f(s[|s| - 1])
  }

  /** Flattening distributes over concatenation. */
  lemma {:induction false} FlatMapConcat<T, U>(a: seq<T>, b: seq<T>, f: T -> seq<U>)
    ensures FlatMap(a + b, f) == FlatMap(a, f) + FlatMap(b, f)
    decreases |b|
  {
    if b == [] {
      assert a + b == a;
    } else {
      var init, x := b[..|b| - 1], b[|b| - 1];
      FlatMapConcat(a, init, f);
      var ab := a + b;
      assert ab[..|ab| - 1] == a + init && ab[|ab| - 1] == x;
      assert FlatMap(ab, f) == FlatMap(a + init, f) + f(x);
      assert FlatMap(b, f) == FlatMap(init, f) + f(x);
    }
  }

  /** A weaker predicate keeps at least as many elements. */
  lemma {:induction false} FilterWeaker<T>(s: seq<T>, p: T -> bool, q: T -> bool)
    requires forall x :: p(x) ==> q(x)
    ensures |Filter(s, p)| <= |Filter(s, q)|
    decreases |s|
  {
    if s != [] {
      FilterWeaker(s[..|s| - 1], p, q);
    }
  }

  /** The distinct elements of `s`, each where it first appears. */
  function Dedup<T(==)>(s: seq<T>): (r: seq<T>)
    ensures forall i :: 0 <= i < |r| ==> r[i] in s
    ensures forall i :: 0 <= i < |s| ==> s[i] in r
    ensures forall i, j :: 0 <= i < j < |r| ==> r[i] != r[j]
    decreases |s|
  {
    if s == [] then []
    else
      var d := Dedup(s[..|s| - 1]);
      assert s == s[..|s| - 1] + [s[|s| - 1]];
      if s[|s| - 1] in d then d else d + [s[|s| - 1]]
  }

  /** `Dedup` of a non-empty sequence, one element at a time. */
  lemma DedupStep<T>(s: seq<T>)
    requires s != []
    ensures var d, x := Dedup(s[..|s| - 1]), s[|s| - 1];
      Dedup(s) == if x in d then d else d + [x]
  {
  }

  /**
   * `Dedup` keeps first-appearance order: an element listed before another
   * occurs in `s` before every occurrence of the other.
   */
  lemma {:induction false} DedupFirstAppearance<T>(s: seq<T>, i: nat, j: nat, k: nat)
    requires i < j < |Dedup(s)| && k < |s| && s[k] == Dedup(s)[j]
    ensures Dedup(s)[i] in s[..k]
    decreases |s|
  {
    var init, last := s[..|s| - 1], s[|s| - 1];
    var d := Dedup(init);
    if k < |s| - 1 {
      assert init[k] == s[k];
      assert s[k] in init;
      assert j < |d|;
      DedupFirstAppearance(init, i, j, k);
      assert init[..k] == s[..k];
    } else {
      assert d[i] in init;
      assert d[i] != last;
      assert init == s[..k];
    }
  }

  /** `s.map(f)` for a function from elements to elements. */
  function Apply<T>(s: seq<T>, f: T -> T): seq<T> {
    seq(|s|, i requires 0 <= i < |s| => f(s[i]))
  }

  /** Mapping distributes over concatenation. */
  lemma ApplyConcat<T>(a: seq<T>, b: seq<T>, f: T -> T)
    ensures Apply(a + b, f) == Apply(a, f) + Apply(b, f)
  {
  }

  /** Mapping by a function that `p` cannot see commutes with filtering by `p`. */
  lemma {:induction false} FilterApply<T>(s: seq<T>, f: T -> T, p: T -> bool)
    requires forall x :: p(f(x)) == p(x)
    ensures Filter(Apply(s, f), p) == Apply(Filter(s, p), f)
    decreases |s|
  {
    if s != [] {
      var init, last := s[..|s| - 1], s[|s| - 1];
      var mapped := Apply(s, f);
      FilterApply(init, f, p);
      assert mapped[..|s| - 1] == Apply(init, f);
      assert mapped[|s| - 1] == f(last);
      ApplyConcat(Filter(init, p), if p(last) then [last] else [], f);
    }
  }

  /** Mapping by a function that keeps keys commutes with inserting. */
  lemma {:induction false} InsertApply<T>(x: T, s: seq<T>, key: T -> real, f: T -> T)
    requires forall y :: key(f(y)) == key(y)
    ensures Insert(f(x), Apply(s, f), key) == Apply(Insert(x, s, key), f)
    decreases |s|
  {
    if s != [] {
      var init, last := s[..|s| - 1], s[|s| - 1];
      var mapped := Apply(s, f);
      assert mapped[..|s| - 1] == Apply(init, f);
      assert mapped[|s| - 1] == f(last);
      if key(last) <= key(x) {
        ApplyConcat(s, [x], f);
      } else {
        InsertApply(x, init, key, f);
        ApplyConcat(Insert(x, init, key), [last], f);
      }
    }
  }

  /** Mapping by a function that keeps keys commutes with sorting. */
  lemma {:induction false} SortByApply<T>(s: seq<T>, key: T -> real, f: T -> T)
    requires forall y :: key(f(y)) == key(y)
    ensures SortBy(Apply(s, f), key) == Apply(SortBy(s, key), f)
    decreases |s|
  {
    if s != [] {
      var init, last := s[..|s| - 1], s[|s| - 1];
      var mapped := Apply(s, f);
      assert mapped[..|s| - 1] == Apply(init, f);
      assert mapped[|s| - 1] == f(last);
      SortByApply(init, key, f);
      InsertApply(last, SortBy(init, key), key, f);
    }
  }
}
