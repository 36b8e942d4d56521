/** Stable descending sort by a numeric key: what Python's `list.sort(key=..., reverse=True)`
    and JavaScript's `Array.prototype.sort` with a comparator `(a, b) => key(b) - key(a)` do.
    Both sorts are stable, so elements with equal keys keep their input order. The sort is
    defined here as an insertion sort on values; its three properties (ordered, a permutation
    of the input, stable) are proved below and are all that the callers use. */
module Ranking {

  /** Keys never increase from left to right. */
  predicate SortedDesc<T>(s: seq<T>, key: T -> real) {
    forall i, j :: 0 <= i < j < |s| ==> key(s[i]) >= key(s[j])
  }

  /** The elements of `s` whose key is `v`, in their order in `s`. Two sequences with the same
      `WithKey` for every `v` order equal-keyed elements identically. */
  function WithKey<T>(s: seq<T>, key: T -> real, v: real): (r: seq<T>)
    ensures |r| <= |s|
  {
    if s == [] then [] else (if key(s[0]) == v then [s[0]] else []) + WithKey(s[1..], key, v)
  }

  /** Places `x` after every element of `s` whose key is at least `key(x)`. */
  function Insert<T>(x: T, s: seq<T>, key: T -> real): (r: seq<T>)
    ensures |r| == |s| + 1
    ensures multiset(r) == multiset(s) + multiset{x}
  {
    if s == [] then [x]
    else if key(s[0]) >= key(x) then
      assert s == [s[0]] + s[1..];
      [s[0]] + Insert(x, s[1..], key)
    else [x] + s
  }

  /** Stable sort by non-increasing key. */
  function SortDesc<T>(s: seq<T>, key: T -> real): (r: seq<T>)
    ensures |r| == |s|
    ensures multiset(r) == multiset(s)
  {
    if s == [] then []
    else
      assert s == s[..|s| - 1] + [s[|s| - 1]];
      Insert(s[|s| - 1], SortDesc(s[..|s| - 1], key), key)
  }

  lemma {:induction false} InsertSorted<T>(x: T, s: seq<T>, key: T -> real)
    requires SortedDesc(s, key)
    ensures SortedDesc(Insert(x, s, key), key)
    decreases |s|
  {
    if s != [] && key(s[0]) >= key(x) {
      var rest := Insert(x, s[1..], key);
      InsertSorted(x, s[1..], key);
      forall j | 0 <= j < |rest|
        ensures key(s[0]) >= key(rest[j])
      {
        assert rest[j] in multiset(rest);
        assert rest[j] == x || rest[j] in multiset(s[1..]);
        if rest[j] != x {
          var k :| 0 <= k < |s[1..]| && s[1..][k] == rest[j];
          assert s[k + 1] == rest[j];
        }
      }
    }
  }

  /** The sort orders by non-increasing key. */
  lemma {:induction false} SortDescSorted<T>(s: seq<T>, key: T -> real)
    ensures SortedDesc(SortDesc(s, key), key)
    decreases |s|
  {
    if s != [] {
      SortDescSorted(s[..|s| - 1], key);
      InsertSorted(s[|s| - 1], SortDesc(s[..|s| - 1], key), key);
    }
  }

  lemma {:induction false} WithKeyConcat<T>(a: seq<T>, b: seq<T>, key: T -> real, v: real)
    ensures WithKey(a + b, key, v) == WithKey(a, key, v) + WithKey(b, key, v)
    decreases |a|
  {
    if a == [] {
      assert a + b == b;
    } else {
      var head := if key(a[0]) == v then [a[0]] else [];
      WithKeyConcat(a[1..], b, key, v);
      assert (a + b)[0] == a[0];
      assert (a + b)[1..] == a[1..] + b;
      assert WithKey(a + b, key, v) == head + (WithKey(a[1..], key, v) + WithKey(b, key, v));
      assert WithKey(a, key, v) == head + WithKey(a[1..], key, v);
    }
  }

  lemma {:induction false} WithKeyAbove<T>(s: seq<T>, key: T -> real, v: real)
    requires forall i :: 0 <= i < |s| ==> key(s[i]) < v
    ensures WithKey(s, key, v) == []
    decreases |s|
  {
    if s != [] {
      WithKeyAbove(s[1..], key, v);
    }
  }

  lemma {:induction false} InsertStable<T>(x: T, s: seq<T>, key: T -> real, v: real)
    requires SortedDesc(s, key)
    ensures WithKey(Insert(x, s, key), key, v) == WithKey(s, key, v) + WithKey([x], key, v)
    decreases |s|
  {
    if s == [] {
      assert Insert(x, s, key) == [x];
    } else if key(s[0]) >= key(x) {
      InsertStable(x, s[1..], key, v);
      InsertStablePast(x, s, key, v);
    } else {
      InsertStableFront(x, s, key, v);
    }
  }

  /** The step of `InsertStable` where `x` goes past the first element. */
  lemma InsertStablePast<T>(x: T, s: seq<T>, key: T -> real, v: real)
    requires s != [] && key(s[0]) >= key(x)
    requires WithKey(Insert(x, s[1..], key), key, v) == WithKey(s[1..], key, v) + WithKey([x], key, v)
    ensures WithKey(Insert(x, s, key), key, v) == WithKey(s, key, v) + WithKey([x], key, v)
  {
    var rest := Insert(x, s[1..], key);
    assert Insert(x, s, key) == [s[0]] + rest;
    WithKeyCons(s[0], rest, key, v);
    WithKeyCons(s[0], s[1..], key, v);
    assert [s[0]] + s[1..] == s;
    var head, a, b := (if key(s[0]) == v then [s[0]] else []), WithKey(s[1..], key, v), WithKey([x], key, v);
    AppendAssoc(head, a, b);
  }

  /** The step of `InsertStable` where `x` goes first: every element after it has a smaller key. */
  lemma InsertStableFront<T>(x: T, s: seq<T>, key: T -> real, v: real)
    requires SortedDesc(s, key) && s != [] && key(s[0]) < key(x)
    ensures WithKey(Insert(x, s, key), key, v) == WithKey(s, key, v) + WithKey([x], key, v)
  {
    assert Insert(x, s, key) == [x] + s;
    WithKeyCons(x, s, key, v);
    WithKeyCons(x, [], key, v);
    assert [x] + [] == [x];
    if key(x) == v {
      WithKeyAbove(s, key, v);
    }
  }

  lemma AppendAssoc<T>(a: seq<T>, b: seq<T>, c: seq<T>)
    ensures a + (b + c) == (a + b) + c
  {
  }

  lemma WithKeyCons<T>(y: T, r: seq<T>, key: T -> real, v: real)
    ensures WithKey([y] + r, key, v) == (if key(y) == v then [y] else []) + WithKey(r, key, v)
  {
    assert ([y] + r)[0] == y && ([y] + r)[1..] == r;
  }

  /** The sort is stable: for every key value, the elements carrying it come out in the order
      in which they went in. */
  lemma {:induction false} SortDescStable<T>(s: seq<T>, key: T -> real, v: real)
    ensures WithKey(SortDesc(s, key), key, v) == WithKey(s, key, v)
    decreases |s|
  {
    if s != [] {
      var init, last := s[..|s| - 1], s[|s| - 1];
      var sortedInit := SortDesc(init, key);
      assert SortDesc(s, key) == Insert(last, sortedInit, key);
      SortDescStable(init, key, v);
      SortDescSorted(init, key);
      InsertStable(last, sortedInit, key, v);
      WithKeySnoc(s, key, v);
    }
  }

  lemma WithKeySnoc<T>(s: seq<T>, key: T -> real, v: real)
    requires s != []
    ensures WithKey(s, key, v) == WithKey(s[..|s| - 1], key, v) + WithKey([s[|s| - 1]], key, v)
  {
    assert s == s[..|s| - 1] + [s[|s| - 1]];
    WithKeyConcat(s[..|s| - 1], [s[|s| - 1]], key, v);
  }

  /** A prefix of a descending sequence is descending, and no element after it outranks one
      inside it. */
  lemma SortedPrefix<T>(s: seq<T>, key: T -> real, n: nat)
    requires SortedDesc(s, key) && n <= |s|
    ensures SortedDesc(s[..n], key)
    ensures forall i, j :: 0 <= i < n <= j < |s| ==> key(s[j]) <= key(s[..n][i])
  {
  }

  /** Every element of a prefix of the sorted sequence comes from the input. */
  lemma SortDescPrefixMembers<T>(s: seq<T>, key: T -> real, n: nat)
    requires n <= |s|
    ensures forall x :: x in SortDesc(s, key)[..n] ==> x in s
  {
    var r := SortDesc(s, key);
    forall x | x in r[..n] ensures x in s {
      assert x in multiset(r);
    }
  }

  /** The first element of the sorted sequence has the largest key of the input. */
  lemma SortDescHeadIsMax<T>(s: seq<T>, key: T -> real)
    requires s != []
    ensures forall i :: 0 <= i < |s| ==> key(SortDesc(s, key)[0]) >= key(s[i])
  {
    var r := SortDesc(s, key);
    SortDescSorted(s, key);
    forall i | 0 <= i < |s|
      ensures key(r[0]) >= key(s[i])
    {
      assert s[i] in multiset(r);
      var j :| 0 <= j < |r| && r[j] == s[i];
    }
  }

  /** When some element has key `v`, the first element of `WithKey(s, key, v)` is the
      leftmost such element of `s`. */
  lemma {:induction false} WithKeyHead<T>(s: seq<T>, key: T -> real, v: real, k: nat)
    requires k < |s| && key(s[k]) == v
    requires forall i :: 0 <= i < k ==> key(s[i]) != v
    ensures WithKey(s, key, v) != [] && WithKey(s, key, v)[0] == s[k]
    decreases k
  {
    if k > 0 {
      WithKeyHead(s[1..], key, v, k - 1);
    }
  }

  /** Taking a prefix keeps, for every key value, a prefix of the elements carrying it. */
  lemma WithKeyOfPrefix<T>(s: seq<T>, n: nat, key: T -> real, v: real)
    requires n <= |s|
    ensures WithKey(s, key, v) == WithKey(s[..n], key, v) + WithKey(s[n..], key, v)
  {
    assert s == s[..n] + s[n..];
    WithKeyConcat(s[..n], s[n..], key, v);
  }
  /** The elements kept by `WithKey` are exactly those of `s` with key `v`. */
  lemma {:induction false} WithKeyMember<T>(s: seq<T>, key: T -> real, v: real, x: T)
    ensures x in WithKey(s, key, v) <==> x in s && key(x) == v
    decreases |s|
  {
    if s != [] {
      WithKeyMember(s[1..], key, v, x);
      assert s == [s[0]] + s[1..];
    }
  }

  /** Keeping only the elements of one key keeps the order the sequence had by another key. */
  lemma {:induction false} WithKeyKeepsOrder<T>(s: seq<T>, key: T -> real, tie: T -> real, v: real)
    requires SortedDesc(s, tie)
    ensures SortedDesc(WithKey(s, key, v), tie)
    decreases |s|
  {
    if s != [] {
      assert forall i, j :: 0 <= i < j < |s[1..]| ==> s[1..][i] == s[i + 1] && s[1..][j] == s[j + 1];
      WithKeyKeepsOrder(s[1..], key, tie, v);
      var w := WithKey(s[1..], key, v);
      forall j | 0 <= j < |w|
        ensures tie(s[0]) >= tie(w[j])
      {
        var t := s[1..];
        WithKeyMember(t, key, v, w[j]);
        var k :| 0 <= k < |t| && t[k] == w[j];
        assert s[k + 1] == w[j];
      }
    }
  }

  /** When every group of equal `key` is ordered by `tie`, any two elements with equal `key`
      appear in non-increasing `tie`. */
  lemma {:induction false} TiesOrdered<T>(s: seq<T>, key: T -> real, tie: T -> real)
    requires forall v :: SortedDesc(WithKey(s, key, v), tie)
    ensures forall i, j :: 0 <= i < j < |s| && key(s[i]) == key(s[j]) ==> tie(s[i]) >= tie(s[j])
    decreases |s|
  {
    if s != [] {
      var r := s[1..];
      forall v
        ensures SortedDesc(WithKey(r, key, v), tie)
      {
        var w := WithKey(s, key, v);
        var pre := if key(s[0]) == v then [s[0]] else [];
        assert w == pre + WithKey(r, key, v);
        assert forall i :: 0 <= i < |WithKey(r, key, v)| ==> WithKey(r, key, v)[i] == w[|pre| + i];
      }
      TiesOrdered(r, key, tie);
      var v0 := key(s[0]);
      var w0 := WithKey(r, key, v0);
      assert WithKey(s, key, v0) == [s[0]] + w0;
      forall i, j | 0 <= i < j < |s| && key(s[i]) == key(s[j])
        ensures tie(s[i]) >= tie(s[j])
      {
        if i == 0 {
          WithKeyMember(r, key, v0, s[j]);
          assert s[j] == r[j - 1] && s[j] in w0;
          var m :| 0 <= m < |w0| && w0[m] == s[j];
          assert SortedDesc(WithKey(s, key, v0), tie);
          assert WithKey(s, key, v0)[0] == s[0] && WithKey(s, key, v0)[m + 1] == s[j];
        } else {
          assert s[i] == r[i - 1] && s[j] == r[j - 1];
          assert 0 <= i - 1 < j - 1 < |r| && key(r[i - 1]) == key(r[j - 1]);
        }
      }
    }
  }

  /** Stably sorting a sequence that is already ordered by `tie` breaks ties of `key` by `tie`. */
  lemma SortDescBreaksTies<T>(s: seq<T>, key: T -> real, tie: T -> real)
    requires SortedDesc(s, tie)
    ensures var r := SortDesc(s, key);
      forall i, j :: 0 <= i < j < |r| && key(r[i]) == key(r[j]) ==> tie(r[i]) >= tie(r[j])
  {
    var r := SortDesc(s, key);
    forall v
      ensures SortedDesc(WithKey(r, key, v), tie)
    {
      SortDescStable(s, key, v);
      WithKeyKeepsOrder(s, key, tie, v);
    }
    TiesOrdered(r, key, tie);
  }
}
