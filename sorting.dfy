/** `Array.prototype.sort` with a numeric comparator `(a, b) => key(b) - key(a)`: a stable
    sort into non-increasing key order (equal keys keep their input order). An ascending
    comparator `key(a) - key(b)` is the same sort by the negated key. */
module Sorting {

  /** The keys never increase along `s`. */
  predicate SortedDesc<T>(s: seq<T>, key: T -> real) {
    forall i, j :: 0 <= i < j < |s| ==> key(s[i]) >= key(s[j])
  }

  /** The elements of `s` whose key is `v`, in their order in `s`. */
  function WithKey<T>(s: seq<T>, key: T -> real, v: real): (r: seq<T>)
    ensures |r| <= |s|
  {
    if s == [] then [] else (if key(s[0]) == v then [s[0]] else []) + WithKey(s[1..], key, v)
  }

  /** Inserts `x` after every element of the sorted `s` whose key is at least `x`'s. */
  function Insert<T>(x: T, s: seq<T>, key: T -> real): (r: seq<T>)
    ensures |r| == |s| + 1
    ensures multiset(r) == multiset(s) + multiset{x}
  {
    if s == [] then [x]
    else
      assert s == [s[0]] + s[1..];
      if key(s[0]) >= key(x) then [s[0]] + Insert(x, s[1..], key) else [x] + s
  }

  /** The stable sort: each element, from the first to the last, inserted into the sorted
      prefix. */
  function SortDesc<T>(s: seq<T>, key: T -> real): (r: seq<T>)
    ensures |r| == |s|
    ensures multiset(r) == multiset(s)
  {
    if s == [] then []
    else
      assert s == s[..|s| - 1] + [s[|s| - 1]];
      Insert(s[|s| - 1], SortDesc(s[..|s| - 1], key), key)
  }

  lemma {:induction false} InsertSorted<T>(x: T, s: seq<T>, key: T -> real)
    requires SortedDesc(s, key)
    ensures SortedDesc(Insert(x, s, key), key)
  {
    if s != [] && key(s[0]) >= key(x) {
      var t := s[1..];
      InsertSorted(x, t, key);
      var r := Insert(x, t, key);
      forall j | 0 <= j < |r| ensures key(s[0]) >= key(r[j]) {
        assert r[j] in multiset(r);
        assert r[j] == x || r[j] in multiset(t);
        if r[j] != x {
          var k :| 0 <= k < |t| && t[k] == r[j];
          assert t[k] == s[k + 1];
        }
      }
      assert Insert(x, s, key) == [s[0]] + r;
    }
  }

  /** The result is sorted into non-increasing key order. */
  lemma {:induction false} SortDescSorted<T>(s: seq<T>, key: T -> real)
    ensures SortedDesc(SortDesc(s, key), key)
  {
    if s != [] {
      SortDescSorted(s[..|s| - 1], key);
      InsertSorted(s[|s| - 1], SortDesc(s[..|s| - 1], key), key);
    }
  }

  lemma Cons<T>(s: seq<T>)
    requires s != []
    ensures [s[0]] + s[1..] == s
  {
  }

  lemma Snoc<T>(s: seq<T>)
    requires s != []
    ensures s[..|s| - 1] + [s[|s| - 1]] == s
  {
  }

  lemma AppendSlice<T>(a: seq<T>, b: seq<T>, j: nat)
    requires j < |b|
    ensures a + b[..j + 1] == (a + b[..j]) + [b[j]]
  {
  }

  lemma WithKeyPrepend<T>(y: T, s: seq<T>, key: T -> real, v: real)
    ensures WithKey([y] + s, key, v) == (if key(y) == v then [y] else []) + WithKey(s, key, v)
  {
    assert ([y] + s)[1..] == s;
  }

  lemma {:induction false} WithKeyAppend<T>(s: seq<T>, y: T, key: T -> real, v: real)
    ensures WithKey(s + [y], key, v) == WithKey(s, key, v) + (if key(y) == v then [y] else [])
  {
    if s == [] {
      assert [] + [y] == [y] && [y][1..] == [];
    } else {
      assert (s + [y])[1..] == s[1..] + [y];
      WithKeyAppend(s[1..], y, key, v);
    }
  }

  lemma {:induction false} WithKeyAllAbove<T>(s: seq<T>, key: T -> real, v: real)
    requires forall i :: 0 <= i < |s| ==> key(s[i]) < v
    ensures WithKey(s, key, v) == []
  {
    if s != [] {
      WithKeyAllAbove(s[1..], key, v);
    }
  }

  /** Inserting `x` adds it at the end of its own key's elements and leaves the other keys'
      elements as they were. */
  lemma {:induction false} WithKeyInsert<T>(x: T, s: seq<T>, key: T -> real, v: real)
    requires SortedDesc(s, key)
    ensures WithKey(Insert(x, s, key), key, v) == WithKey(s, key, v) + (if key(x) == v then [x] else [])
  {
    var post := if key(x) == v then [x] else [];
    if s == [] {
      assert [x][1..] == [];
    } else if key(s[0]) >= key(x) {
      var t := s[1..];
      var pre := if key(s[0]) == v then [s[0]] else [];
      assert SortedDesc(t, key);
      WithKeyInsert(x, t, key, v);
      WithKeyPrepend(s[0], Insert(x, t, key), key, v);
      assert WithKey(Insert(x, s, key), key, v) == pre + (WithKey(t, key, v) + post);
      WithKeyPrepend(s[0], t, key, v);
      Cons(s);
      assert WithKey(s, key, v) == pre + WithKey(t, key, v);
    } else {
      WithKeyPrepend(x, s, key, v);
      if key(x) == v {
        WithKeyAllAbove(s, key, v);
      }
    }
  }

  /** Stability: for every key value, the elements with that key keep their input order. */
  lemma {:induction false} SortDescStable<T>(s: seq<T>, key: T -> real, v: real)
    ensures WithKey(SortDesc(s, key), key, v) == WithKey(s, key, v)
  {
    if s != [] {
      var init, x := s[..|s| - 1], s[|s| - 1];
      SortDescStable(init, key, v);
      SortDescSorted(init, key);
      WithKeyInsert(x, SortDesc(init, key), key, v);
      Snoc(s);
      WithKeyAppend(init, x, key, v);
    }
  }

  /** The sort leaves an already sorted list as it is. */
  lemma {:induction false} SortDescOfSorted<T>(s: seq<T>, key: T -> real)
    requires SortedDesc(s, key)
    ensures SortDesc(s, key) == s
  {
    if s != [] {
      var init, x := s[..|s| - 1], s[|s| - 1];
      SortDescOfSorted(init, key);
      InsertAtEnd(x, init, key);
      assert init + [x] == s;
    }
  }

  lemma {:induction false} InsertAtEnd<T>(x: T, s: seq<T>, key: T -> real)
    requires forall i :: 0 <= i < |s| ==> key(s[i]) >= key(x)
    ensures Insert(x, s, key) == s + [x]
  {
    if s != [] {
      InsertAtEnd(x, s[1..], key);
      assert s == [s[0]] + s[1..];
    }
  }

  // ---------------------------------------------------------------------------
  // Sums over lists

  /** `s.reduce((sum, x) => sum + f(x), 0)`. */
  function SumBy<T>(s: seq<T>, f: T -> real): real {
    if s == [] then 0.0 else f(s[0]) + SumBy(s[1..], f)
  }

  lemma {:induction false} SumByAppend<T>(a: seq<T>, b: seq<T>, f: T -> real)
    ensures SumBy(a + b, f) == SumBy(a, f) + SumBy(b, f)
  {
    if a != [] {
      assert (a + b)[1..] == a[1..] + b;
      SumByAppend(a[1..], b, f);
    } else {
      assert a + b == b;
    }
  }

  /** Reordering a list does not change its sum. */
  lemma {:induction false} SumByPermutation<T>(a: seq<T>, b: seq<T>, f: T -> real)
    requires multiset(a) == multiset(b)
    ensures SumBy(a, f) == SumBy(b, f)
    decreases |a|
  {
    if a == [] {
      assert |b| == |multiset(b)| == 0;
    } else {
      var x := a[0];
      assert x in multiset(b);
      var i :| 0 <= i < |b| && b[i] == x;
      var rest := b[..i] + b[i + 1..];
      assert b == b[..i] + [x] + b[i + 1..];
      assert multiset(rest) == multiset(b) - multiset{x};
      Cons(a);
      assert multiset(a[1..]) == multiset(a) - multiset{x};
      SumByPermutation(a[1..], rest, f);
      SumByAppend(b[..i], b[i + 1..], f);
      SumByAppend(b[..i] + [x], b[i + 1..], f);
      SumByAppend(b[..i], [x], f);
      assert SumBy([x], f) == f(x);
    }
  }

  // ---------------------------------------------------------------------------
  // Lists without repetitions

  /** No entry of `s` occurs twice. */
  predicate Distinct<T(==)>(s: seq<T>) {
    forall i, j :: 0 <= i < j < |s| ==> s[i] != s[j]
  }

  /** In a list without repetitions every entry occurs once. */
  lemma {:induction false} DistinctOnce<T>(s: seq<T>, x: T)
    requires Distinct(s)
    ensures multiset(s)[x] == if x in s then 1 else 0
  {
    if s != [] {
      Cons(s);
      assert Distinct(s[1..]);
      DistinctOnce(s[1..], x);
      assert multiset(s) == multiset{s[0]} + multiset(s[1..]);
    }
  }

  /** A repeated entry occurs at least twice. */
  lemma RepeatCount<T>(s: seq<T>, i: nat, j: nat)
    requires i < j < |s| && s[i] == s[j]
    ensures multiset(s)[s[i]] >= 2
  {
    assert s == s[..i] + [s[i]] + s[i + 1..j] + [s[j]] + s[j + 1..];
  }

  /** A reordering of a list without repetitions has none either. */
  lemma DistinctPermutation<T>(s: seq<T>, t: seq<T>)
    requires Distinct(s) && multiset(s) == multiset(t)
    ensures Distinct(t)
  {
    forall i, j | 0 <= i < j < |t| ensures t[i] != t[j] {
      if t[i] == t[j] {
        RepeatCount(t, i, j);
        DistinctOnce(s, t[i]);
      }
    }
  }
}
