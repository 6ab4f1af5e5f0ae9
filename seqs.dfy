/** Sequence helpers shared by the list-shaped parts of the storefront:
    `filter`, order-preserving subsequences, `Array.from(new Set(...))`. */
module Seqs {

  /** `s.filter(f)`, defined by the last element so that loops that push
      at the end line up with it. */
  function Filter<T>(f: T -> bool, s: seq<T>): (r: seq<T>)
    ensures |r| <= |s|
    ensures forall i :: 0 <= i < |r| ==> r[i] in s && f(r[i])
    ensures forall i :: 0 <= i < |s| && f(s[i]) ==> s[i] in r
    decreases |s|
  {
    if s == [] then []
    else Filter(f, s[..|s| - 1]) + (if f(s[|s| - 1]) then [s[|s| - 1]] else [])
  }

  /** Two lists holding the same elements as often have the same members. */
  lemma SameMembers<T>(a: seq<T>, b: seq<T>)
    requires multiset(a) == multiset(b)
    ensures forall x :: x in a <==> x in b
  {
    forall x ensures x in a <==> x in b {
      assert x in a <==> x in multiset(a);
      assert x in b <==> x in multiset(b);
    }
  }

  /** A reordering of a filtered list holds exactly the members that
      pass. */
  lemma PermutedFilterMembers<T>(f: T -> bool, s: seq<T>, r: seq<T>)
    requires multiset(r) == multiset(Filter(f, s))
    ensures forall i :: 0 <= i < |r| ==> r[i] in s && f(r[i])
    ensures forall x :: x in r <==> x in s && f(x)
    ensures |r| <= |s|
  {
    SameMembers(r, Filter(f, s));
    FilterMembers(f, s);
    assert |r| == |multiset(r)|;
    forall i | 0 <= i < |r| ensures r[i] in s && f(r[i]) {
      assert r[i] in r;
    }
  }

  /** A list made by converting each member of a filtered list holds the
      conversions of exactly the members that pass. */
  lemma MappedFilterMembers<T, U>(f: T -> bool, g: T -> U, s: seq<T>, r: seq<U>)
    requires |r| == |Filter(f, s)|
    requires forall i :: 0 <= i < |r| ==> r[i] == g(Filter(f, s)[i])
    ensures forall y :: y in r <==> exists j :: 0 <= j < |s| && f(s[j]) && y == g(s[j])
  {
    var kept := Filter(f, s);
    forall y | y in r ensures exists j :: 0 <= j < |s| && f(s[j]) && y == g(s[j]) {
      var i :| 0 <= i < |r| && r[i] == y;
      assert kept[i] in s;
      var j :| 0 <= j < |s| && s[j] == kept[i];
    }
    forall j | 0 <= j < |s| && f(s[j]) ensures g(s[j]) in r {
      assert s[j] in kept;
      var i :| 0 <= i < |kept| && kept[i] == s[j];
      assert r[i] == g(s[j]);
    }
  }

  /** Filtering a list with one more element at the end. */
  lemma FilterSnoc<T>(f: T -> bool, s: seq<T>, x: T)
    ensures Filter(f, s + [x]) == Filter(f, s) + (if f(x) then [x] else [])
  {
    assert (s + [x])[..|s + [x]| - 1] == s;
  }

  /** An element is kept exactly when it occurs and passes the test. */
  lemma FilterMembers<T>(f: T -> bool, s: seq<T>)
    ensures forall x :: x in Filter(f, s) <==> x in s && f(x)
  {
    forall x | x in s && f(x) ensures x in Filter(f, s) {
      var i :| 0 <= i < |s| && s[i] == x;
    }
    forall x | x in Filter(f, s) ensures x in s && f(x) {
      var r := Filter(f, s);
      var i :| 0 <= i < |r| && r[i] == x;
    }
  }

  lemma {:induction false} FilterAppend<T>(f: T -> bool, a: seq<T>, b: seq<T>)
    ensures Filter(f, a + b) == Filter(f, a) + Filter(f, b)
    decreases |b|
  {
    if b == [] {
      assert a + b == a;
    } else {
      var b' := b[..|b| - 1];
      assert a + b == (a + b') + [b[|b| - 1]];
      assert (a + b)[..|a + b| - 1] == a + b';
      FilterAppend(f, a, b');
    }
  }

  lemma FilterAll<T>(f: T -> bool, s: seq<T>)
    requires forall x :: x in s ==> f(x)
    ensures Filter(f, s) == s
    decreases |s|
  {
    if s != [] {
      assert s == s[..|s| - 1] + [s[|s| - 1]];
      FilterAll(f, s[..|s| - 1]);
    }
  }

  /** Two tests that agree on every element keep the same elements. */
  lemma {:induction false} FilterCongruent<T>(f: T -> bool, g: T -> bool, s: seq<T>)
    requires forall x :: x in s ==> f(x) == g(x)
    ensures Filter(f, s) == Filter(g, s)
    decreases |s|
  {
    if s != [] {
      FilterCongruent(f, g, s[..|s| - 1]);
    }
  }

  lemma FilterNone<T>(f: T -> bool, s: seq<T>)
    requires forall x :: x in s ==> !f(x)
    ensures Filter(f, s) == []
    decreases |s|
  {
    if s != [] {
      FilterNone(f, s[..|s| - 1]);
    }
  }

  /** The number of elements of `s` that satisfy `f`. */
  function Count<T>(f: T -> bool, s: seq<T>): nat
    decreases |s|
  {
    if s == [] then 0 else Count(f, s[..|s| - 1]) + (if f(s[|s| - 1]) then 1 else 0)
  }

  lemma {:induction false} FilterLength<T>(f: T -> bool, s: seq<T>)
    ensures |Filter(f, s)| == Count(f, s)
    decreases |s|
  {
    if s != [] {
      FilterLength(f, s[..|s| - 1]);
    }
  }

  /** `a` is `b` with some elements dropped and the rest in their order. */
  predicate IsSubsequence<T(==)>(a: seq<T>, b: seq<T>)
    decreases |b|
  {
    if a == [] then true
    else if b == [] then false
    else if a[|a| - 1] == b[|b| - 1] then IsSubsequence(a[..|a| - 1], b[..|b| - 1])
    else IsSubsequence(a, b[..|b| - 1])
  }

  lemma {:induction false} SubsequenceSnocRight<T>(a: seq<T>, b: seq<T>, x: T)
    requires IsSubsequence(a, b)
    ensures IsSubsequence(a, b + [x])
    decreases |b|, 1
  {
    if a != [] {
      var bx := b + [x];
      assert bx[..|bx| - 1] == b;
      if a[|a| - 1] != x {
        assert IsSubsequence(a, bx);
      } else {
        ShorterSubsequence(a, b);
      }
    }
  }

  /** Dropping the last element of the shorter side keeps a subsequence. */
  lemma {:induction false} ShorterSubsequence<T>(a: seq<T>, b: seq<T>)
    requires a != [] && IsSubsequence(a, b)
    ensures IsSubsequence(a[..|a| - 1], b)
    decreases |b|, 0
  {
    var a' := a[..|a| - 1];
    if b == [] {
    } else if a[|a| - 1] == b[|b| - 1] {
      SubsequenceSnocRight(a', b[..|b| - 1], b[|b| - 1]);
      assert b[..|b| - 1] + [b[|b| - 1]] == b;
    } else {
      ShorterSubsequence(a, b[..|b| - 1]);
      SubsequenceSnocRight(a', b[..|b| - 1], b[|b| - 1]);
      assert b[..|b| - 1] + [b[|b| - 1]] == b;
    }
  }

  /** Every element of a subsequence occurs in the longer sequence. */
  lemma {:induction false} SubsequenceMembers<T>(a: seq<T>, b: seq<T>)
    requires IsSubsequence(a, b)
    ensures forall i :: 0 <= i < |a| ==> a[i] in b
    decreases |b|
  {
    if a != [] && b != [] {
      var b' := b[..|b| - 1];
      if a[|a| - 1] == b[|b| - 1] {
        var a' := a[..|a| - 1];
        SubsequenceMembers(a', b');
        forall i | 0 <= i < |a| ensures a[i] in b {
          if i < |a| - 1 {
            assert a[i] == a'[i];
          }
        }
      } else {
        SubsequenceMembers(a, b');
      }
    }
  }

  lemma {:induction false} FilterIsSubsequence<T>(f: T -> bool, s: seq<T>)
    ensures IsSubsequence(Filter(f, s), s)
    decreases |s|
  {
    if s != [] {
      var s' := s[..|s| - 1];
      var x := s[|s| - 1];
      FilterIsSubsequence(f, s');
      assert s' + [x] == s;
      assert s[..|s| - 1] == s';
      if f(x) {
        var r := Filter(f, s);
        assert r == Filter(f, s') + [x];
        assert r[..|r| - 1] == Filter(f, s');
      } else {
        assert Filter(f, s) == Filter(f, s');
        SubsequenceSnocRight(Filter(f, s'), s', x);
      }
    }
  }

  lemma {:induction false} PrefixIsSubsequence<T>(a: seq<T>, n: nat)
    requires n <= |a|
    ensures IsSubsequence(a[..n], a)
    decreases |a|
  {
    if n == |a| {
      SelfSubsequence(a);
      assert a[..n] == a;
    } else {
      PrefixIsSubsequence(a[..|a| - 1], n);
      assert a[..|a| - 1][..n] == a[..n];
      SubsequenceSnocRight(a[..n], a[..|a| - 1], a[|a| - 1]);
      assert a[..|a| - 1] + [a[|a| - 1]] == a;
    }
  }

  lemma {:induction false} SelfSubsequence<T>(a: seq<T>)
    ensures IsSubsequence(a, a)
    decreases |a|
  {
    if a != [] {
      SelfSubsequence(a[..|a| - 1]);
    }
  }

  lemma {:induction false} SubsequenceTransitive<T>(a: seq<T>, b: seq<T>, c: seq<T>)
    requires IsSubsequence(a, b) && IsSubsequence(b, c)
    ensures IsSubsequence(a, c)
    decreases |c|
  {
    if a == [] {
    } else if c == [] {
    } else if b[|b| - 1] == c[|c| - 1] {
      var b', c' := b[..|b| - 1], c[..|c| - 1];
      if a[|a| - 1] == b[|b| - 1] {
        SubsequenceTransitive(a[..|a| - 1], b', c');
      } else {
        SubsequenceTransitive(a, b', c');
        SubsequenceSnocRight(a, c', c[|c| - 1]);
        assert c' + [c[|c| - 1]] == c;
      }
    } else {
      SubsequenceTransitive(a, b, c[..|c| - 1]);
      SubsequenceSnocRight(a, c[..|c| - 1], c[|c| - 1]);
      assert c[..|c| - 1] + [c[|c| - 1]] == c;
    }
  }

  /** No value occurs twice. */
  predicate NoDuplicates<T(==)>(s: seq<T>) {
    forall i, j :: 0 <= i < j < |s| ==> s[i] != s[j]
  }

  /** The position of the first occurrence of `x` in `s` (`indexOf`). */
  function FirstIndex<T(==)>(s: seq<T>, x: T): (k: nat)
    requires x in s
    ensures k < |s| && s[k] == x && x !in s[..k]
  {
    if s[0] == x then 0
    else
      var k := 1 + FirstIndex(s[1..], x);
      assert s[1..][..k - 1] == s[1..k];
      k
  }

  /** `Array.from(new Set(s))`: the distinct values, in the order in which
      they first occur. */
  function Dedup<T(==)>(s: seq<T>): (r: seq<T>)
    ensures NoDuplicates(r)
    ensures forall i :: 0 <= i < |r| ==> r[i] in s
    ensures forall i :: 0 <= i < |s| ==> s[i] in r
    decreases |s|
  {
    if s == [] then []
    else
      var d := Dedup(s[..|s| - 1]);
      if s[|s| - 1] in d then d
      else
        d + [s[|s| - 1]]
  }

  lemma FirstIndexOfPrefix<T>(s: seq<T>, n: nat, x: T)
    requires n <= |s| && x in s[..n]
    ensures FirstIndex(s, x) == FirstIndex(s[..n], x)
  {
    var k := FirstIndex(s[..n], x);
    var m := FirstIndex(s, x);
    assert s[..n][k] == s[k];
    assert s[..n][..k] == s[..k];
    assert forall j :: 0 <= j < m ==> s[..m][j] == s[j];
    assert forall j :: 0 <= j < k ==> s[..k][j] == s[j];
  }

  /** The values of `Dedup(s)` appear in the order of their first occurrences. */
  lemma {:induction false} DedupFirstOccurrenceOrder<T>(s: seq<T>)
    ensures forall i, j :: 0 <= i < j < |Dedup(s)| ==>
      FirstIndex(s, Dedup(s)[i]) < FirstIndex(s, Dedup(s)[j])
    decreases |s|
  {
    if s != [] {
      var s' := s[..|s| - 1];
      var x := s[|s| - 1];
      var d := Dedup(s');
      DedupFirstOccurrenceOrder(s');
      forall i | 0 <= i < |d| ensures FirstIndex(s, d[i]) == FirstIndex(s', d[i]) < |s'| {
        FirstIndexOfPrefix(s, |s'|, d[i]);
      }
      var r := Dedup(s);
      forall i, j | 0 <= i < j < |r| ensures FirstIndex(s, r[i]) < FirstIndex(s, r[j]) {
        assert r[i] == d[i];
        if j < |d| {
          assert r[j] == d[j];
        } else {
          assert r[j] == x && x !in s[..|s'|];
        }
      }
    }
  }

  /** `flatMap` over lists already mapped: the lists one after another. */
  function Flatten<T(!new)>(ss: seq<seq<T>>): (r: seq<T>)
    ensures forall x :: x in r <==> exists i :: 0 <= i < |ss| && x in ss[i]
    decreases |ss|
  {
    if ss == [] then []
    else
      var r := Flatten(ss[..|ss| - 1]) + ss[|ss| - 1];
      assert forall i :: 0 <= i < |ss| - 1 ==> ss[..|ss| - 1][i] == ss[i];
      r
  }

  /** `indexOf`: the first position of `x`, or -1. */
  function IndexOf<T(==)>(s: seq<T>, x: T): (k: int)
    ensures -1 <= k < |s|
    ensures k == -1 <==> x !in s
    ensures k >= 0 ==> s[k] == x && x !in s[..k]
  {
    if |s| == 0 then -1
    else if s[0] == x then 0
    else
      var k := IndexOf(s[1..], x);
      if k == -1 then -1
      else
        assert s[1..][..k] == s[1..k + 1];
        assert s[..k + 1] == [s[0]] + s[1..k + 1];
        k + 1
  }

  /** A subsequence of a list without repeats has none either. */
  lemma {:induction false} SubsequenceNoDuplicates<T>(a: seq<T>, b: seq<T>)
    requires IsSubsequence(a, b) && NoDuplicates(b)
    ensures NoDuplicates(a)
    decreases |b|
  {
    if a != [] && b != [] {
      var b' := b[..|b| - 1];
      assert NoDuplicates(b') by {
        forall i, j | 0 <= i < j < |b'| ensures b'[i] == b[i] && b'[j] == b[j] { }
      }
      if a[|a| - 1] == b[|b| - 1] {
        var a' := a[..|a| - 1];
        SubsequenceNoDuplicates(a', b');
        SubsequenceMembers(a', b');
        forall i | 0 <= i < |a| - 1 ensures a[i] != a[|a| - 1] {
          assert a[i] == a'[i];
          var k :| 0 <= k < |b'| && b'[k] == a[i];
          assert b[k] == a[i];
        }
      } else {
        SubsequenceNoDuplicates(a, b');
      }
    }
  }

  function Differs<T(==)>(x: T): T -> bool {
    y => y != x
  }

  /** `s.filter(y => y !== x)` */
  function Without<T(==)>(s: seq<T>, x: T): seq<T> {
    Filter(Differs(x), s)
  }

  /** Removing a value drops every occurrence of it and nothing else,
      keeps the order, keeps a list without repeats so, and leaves a list
      without the value as it is. */
  lemma WithoutSpec<T>(s: seq<T>, x: T)
    ensures var r := Without(s, x);
            && x !in r
            && (forall y :: y != x ==> (y in r <==> y in s))
            && IsSubsequence(r, s)
            && (NoDuplicates(s) ==> NoDuplicates(r))
            && (x !in s ==> r == s)
  {
    var r := Without(s, x);
    FilterIsSubsequence(Differs(x), s);
    SubsequenceMembers(r, s);
    if NoDuplicates(s) {
      SubsequenceNoDuplicates(r, s);
    }
    if x !in s {
      FilterAll(Differs(x), s);
    }
  }

  /** In a list without repeats, each element is found at its own
      position. */
  lemma IndexOfDistinct<T>(s: seq<T>, k: nat)
    requires NoDuplicates(s) && k < |s|
    ensures IndexOf(s, s[k]) == k
  {
    assert s[k] in s;
  }
}
