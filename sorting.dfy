/** `Array.prototype.sort` with a comparator `(a, b) => key(a) - key(b)`.
    The engine's sort is stable, so it is modelled by a stable insertion
    sort: every element is placed after all earlier elements whose key is
    not larger than its own. */
module Sorting {
  import Seqs

  predicate SortedBy<T>(s: seq<T>, key: T -> real) {
    forall i, j :: 0 <= i < j < |s| ==> key(s[i]) <= key(s[j])
  }

  /** `x` placed after the last element of `s` whose key is at most `key(x)`. */
  function Insert<T>(x: T, s: seq<T>, key: T -> real): seq<T>
    decreases |s|
  {
    if s == [] || key(s[|s| - 1]) <= key(x) then s + [x]
    else Insert(x, s[..|s| - 1], key) + [s[|s| - 1]]
  }

  function SortBy<T>(s: seq<T>, key: T -> real): seq<T>
    decreases |s|
  {
    if s == [] then [] else Insert(s[|s| - 1], SortBy(s[..|s| - 1], key), key)
  }

  lemma {:induction false} InsertPermutation<T>(x: T, s: seq<T>, key: T -> real)
    ensures multiset(Insert(x, s, key)) == multiset(s) + multiset{x}
    decreases |s|
  {
    if s != [] && key(s[|s| - 1]) > key(x) {
      InsertPermutation(x, s[..|s| - 1], key);
      assert s == s[..|s| - 1] + [s[|s| - 1]];
    }
  }

  lemma {:induction false} InsertSorted<T>(x: T, s: seq<T>, key: T -> real)
    requires SortedBy(s, key)
    ensures SortedBy(Insert(x, s, key), key)
    decreases |s|
  {
    if s != [] && key(s[|s| - 1]) > key(x) {
      var s', last := s[..|s| - 1], s[|s| - 1];
      InsertSorted(x, s', key);
      InsertPermutation(x, s', key);
      var r := Insert(x, s', key);
      forall i | 0 <= i < |r| ensures key(r[i]) <= key(last) {
        assert r[i] in multiset(r);
        assert r[i] in multiset(s') || r[i] == x;
      }
    }
  }

  /** The sorted sequence is ordered by key. */
  lemma {:induction false} SortBySorted<T>(s: seq<T>, key: T -> real)
    ensures SortedBy(SortBy(s, key), key)
    decreases |s|
  {
    if s != [] {
      SortBySorted(s[..|s| - 1], key);
      InsertSorted(s[|s| - 1], SortBy(s[..|s| - 1], key), key);
    }
  }

  /** The sorted sequence is a rearrangement of the input. */
  lemma {:induction false} SortByPermutation<T>(s: seq<T>, key: T -> real)
    ensures multiset(SortBy(s, key)) == multiset(s)
    ensures |SortBy(s, key)| == |s|
    decreases |s|
  {
    if s != [] {
      SortByPermutation(s[..|s| - 1], key);
      InsertPermutation(s[|s| - 1], SortBy(s[..|s| - 1], key), key);
      assert s == s[..|s| - 1] + [s[|s| - 1]];
    }
    assert |multiset(SortBy(s, key))| == |SortBy(s, key)|;
  }

  function KeyIs<T>(key: T -> real, v: real): T -> bool {
    y => key(y) == v
  }

  lemma {:induction false} InsertStable<T>(x: T, s: seq<T>, key: T -> real, v: real)
    ensures Seqs.Filter(KeyIs(key, v), Insert(x, s, key))
         == Seqs.Filter(KeyIs(key, v), s) + (if key(x) == v then [x] else [])
    decreases |s|
  {
    if s == [] || key(s[|s| - 1]) <= key(x) {
      Seqs.FilterSnoc(KeyIs(key, v), s, x);
    } else {
      InsertStable(x, s[..|s| - 1], key, v);
      InsertStableStep(x, s, key, v);
    }
  }

  /** The step of `InsertStable` where `x` moves before the last element. */
  lemma InsertStableStep<T>(x: T, s: seq<T>, key: T -> real, v: real)
    requires s != [] && key(s[|s| - 1]) > key(x)
    requires Seqs.Filter(KeyIs(key, v), Insert(x, s[..|s| - 1], key))
          == Seqs.Filter(KeyIs(key, v), s[..|s| - 1]) + (if key(x) == v then [x] else [])
    ensures Seqs.Filter(KeyIs(key, v), Insert(x, s, key))
         == Seqs.Filter(KeyIs(key, v), s) + (if key(x) == v then [x] else [])
  {
    var f := KeyIs(key, v);
    var s', last := s[..|s| - 1], s[|s| - 1];
    Seqs.FilterSnoc(f, Insert(x, s', key), last);
    var kept := Seqs.Filter(f, s');
    var withX: seq<T> := if key(x) == v then [x] else [];
    var withLast: seq<T> := if key(last) == v then [last] else [];
    assert Seqs.Filter(f, Insert(x, s, key)) == (kept + withX) + withLast;
    assert Seqs.Filter(f, s) == kept + withLast;
    // last's key exceeds x's, so at most one of the two has the key v.
    assert withX == [] || withLast == [];
    SwapEmpty(kept, withX, withLast);
  }

  /** Appending two sequences one of which is empty does not depend on
      their order. */
  lemma SwapEmpty<T>(a: seq<T>, b: seq<T>, c: seq<T>)
    requires b == [] || c == []
    ensures (a + b) + c == (a + c) + b
  {
    if b == [] {
      assert a + b == a;
      assert (a + c) + b == a + c;
    } else {
      assert a + c == a;
      assert (a + b) + c == a + b;
    }
  }

  /** Stability: the elements that share one key keep their relative order. */
  lemma {:induction false} SortByStable<T>(s: seq<T>, key: T -> real, v: real)
    ensures Seqs.Filter(KeyIs(key, v), SortBy(s, key)) == Seqs.Filter(KeyIs(key, v), s)
    decreases |s|
  {
    if s != [] {
      SortByStable(s[..|s| - 1], key, v);
      InsertStable(s[|s| - 1], SortBy(s[..|s| - 1], key), key, v);
    }
  }
}
