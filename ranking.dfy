/** Python's `sorted(items, key=key, reverse=True)`, which the BM25 search and
    the reciprocal-rank fusion both rank their results with: a stable sort,
    largest key first, elements with equal keys in their original order.

    Only the result of the sort is modelled (as an insertion sort), not
    Timsort's steps. */
module Ranking {

  /** Largest key first. */
  predicate Descending<T>(s: seq<T>, key: T -> real) {
    forall i, j :: 0 <= i < j < |s| ==> key(s[i]) >= key(s[j])
  }

  /** `x` placed after every element of `s` whose key is at least its own. */
  function Insert<T>(x: T, s: seq<T>, key: T -> real): (r: seq<T>)
    ensures |r| == |s| + 1
  {
    if s == [] then [x]
    else if key(s[0]) >= key(x) then [s[0]] + Insert(x, s[1..], key)
    else [x] + s
  }

  /** `sorted(s, key=key, reverse=True)`. */
  function SortDescending<T>(s: seq<T>, key: T -> real): (r: seq<T>)
    ensures |r| == |s|
  {
    if s == [] then [] else Insert(s[|s| - 1], SortDescending(s[..|s| - 1], key), key)
  }

  /** The elements whose key is `v`, in order. */
  function WithKey<T>(s: seq<T>, key: T -> real, v: real): seq<T> {
    if s == [] then [] else (if key(s[0]) == v then [s[0]] else []) + WithKey(s[1..], key, v)
  }

  /** `f` applied to every element. */
  function Project<T, K>(s: seq<T>, f: T -> K): (r: seq<K>)
    ensures |r| == |s|
    ensures forall i :: 0 <= i < |s| ==> r[i] == f(s[i])
  {
    seq(|s|, i requires 0 <= i < |s| => f(s[i]))
  }

  // ----- the sort orders -----

  lemma {:induction false} InsertDescending<T>(x: T, s: seq<T>, key: T -> real)
    requires Descending(s, key)
    ensures Descending(Insert(x, s, key), key)
  {
    if s != [] && key(s[0]) >= key(x) {
      var tail := Insert(x, s[1..], key);
      InsertDescending(x, s[1..], key);
      InsertBound(x, s[1..], key, key(s[0]));
      var r := [s[0]] + tail;
      forall i, j | 0 <= i < j < |r|
        ensures key(r[i]) >= key(r[j])
      {
        if i > 0 {
          assert r[i] == tail[i - 1] && r[j] == tail[j - 1];
        } else {
          assert r[j] == tail[j - 1];
        }
      }
    }
  }

  /** Inserting keeps every key at most `b` when `x`'s and `s`'s are. */
  lemma {:induction false} InsertBound<T>(x: T, s: seq<T>, key: T -> real, b: real)
    requires key(x) <= b && forall i :: 0 <= i < |s| ==> key(s[i]) <= b
    ensures forall i :: 0 <= i < |s| + 1 ==> key(Insert(x, s, key)[i]) <= b
  {
    if s != [] && key(s[0]) >= key(x) {
      InsertBound(x, s[1..], key, b);
      var tail := Insert(x, s[1..], key);
      assert forall i :: 1 <= i < |s| + 1 ==> Insert(x, s, key)[i] == tail[i - 1];
    }
  }

  /** The sort's result is in non-increasing key order. */
  lemma {:induction false} SortDescendingOrders<T>(s: seq<T>, key: T -> real)
    ensures Descending(SortDescending(s, key), key)
  {
    if s != [] {
      SortDescendingOrders(s[..|s| - 1], key);
      InsertDescending(s[|s| - 1], SortDescending(s[..|s| - 1], key), key);
    }
  }

  // ----- the sort permutes -----

  lemma {:induction false} InsertPermutes<T, K>(x: T, s: seq<T>, key: T -> real, f: T -> K)
    ensures multiset(Project(Insert(x, s, key), f)) == multiset(Project(s, f)) + multiset{f(x)}
  {
    if s != [] {
      assert [s[0]] + s[1..] == s;
      ProjectCons(s[0], s[1..], f);
      if key(s[0]) >= key(x) {
        InsertPermutes(x, s[1..], key, f);
        ProjectCons(s[0], Insert(x, s[1..], key), f);
      } else {
        ProjectCons(x, s, f);
      }
    }
  }

  lemma ProjectCons<T, K>(x: T, s: seq<T>, f: T -> K)
    ensures Project([x] + s, f) == [f(x)] + Project(s, f)
  {
  }

  /** The sort's result is a permutation of its input, and so is what `f`
      reads off the elements. */
  lemma {:induction false} SortDescendingPermutes<T, K>(s: seq<T>, key: T -> real, f: T -> K)
    ensures multiset(Project(SortDescending(s, key), f)) == multiset(Project(s, f))
  {
    if s != [] {
      var init := s[..|s| - 1];
      SortDescendingPermutes(init, key, f);
      InsertPermutes(s[|s| - 1], SortDescending(init, key), key, f);
      assert Project(s, f) == Project(init, f) + [f(s[|s| - 1])];
    }
  }

  lemma SortDescendingMembers<T>(s: seq<T>, key: T -> real)
    ensures multiset(SortDescending(s, key)) == multiset(s)
    ensures forall x :: x in SortDescending(s, key) <==> x in s
  {
    var r := SortDescending(s, key);
    SortDescendingPermutes(s, key, (x: T) => x);
    assert Project(r, (x: T) => x) == r;
    assert Project(s, (x: T) => x) == s;
    assert forall x :: x in r <==> x in multiset(r);
  }

  // ----- the sort is stable -----

  lemma {:induction false} WithKeyAppend<T>(a: seq<T>, b: seq<T>, key: T -> real, v: real)
    ensures WithKey(a + b, key, v) == WithKey(a, key, v) + WithKey(b, key, v)
  {
    if a == [] {
      assert a + b == b;
    } else {
      WithKeyAppend(a[1..], b, key, v);
      assert (a + b)[1..] == a[1..] + b;
      assert (a + b)[0] == a[0];
    }
  }

  /** In non-increasing order, nothing after a key below `v` has key `v`. */
  lemma {:induction false} WithKeyBelow<T>(s: seq<T>, key: T -> real, v: real)
    requires Descending(s, key) && s != [] && key(s[0]) < v
    ensures WithKey(s, key, v) == []
  {
    if |s| > 1 {
      assert Descending(s[1..], key) by {
        assert forall i :: 0 <= i < |s| - 1 ==> s[1..][i] == s[i + 1];
      }
      WithKeyBelow(s[1..], key, v);
    }
  }

  lemma {:induction false} InsertWithKey<T>(x: T, s: seq<T>, key: T -> real, v: real)
    requires Descending(s, key)
    ensures WithKey(Insert(x, s, key), key, v) == WithKey(s, key, v) + if key(x) == v then [x] else []
  {
    if s != [] {
      if key(s[0]) >= key(x) {
        assert Descending(s[1..], key) by {
          assert forall i :: 0 <= i < |s| - 1 ==> s[1..][i] == s[i + 1];
        }
        InsertWithKey(x, s[1..], key, v);
        assert ([s[0]] + Insert(x, s[1..], key))[1..] == Insert(x, s[1..], key);
      } else if key(x) == v {
        WithKeyBelow(s, key, v);
        assert ([x] + s)[1..] == s;
      } else {
        assert ([x] + s)[1..] == s;
      }
    }
  }

  /** The sort is stable: the elements with any one key keep their order. */
  lemma {:induction false} SortDescendingStable<T>(s: seq<T>, key: T -> real, v: real)
    ensures WithKey(SortDescending(s, key), key, v) == WithKey(s, key, v)
  {
    if s != [] {
      var init, last := s[..|s| - 1], s[|s| - 1];
      SortDescendingStable(init, key, v);
      SortDescendingOrders(init, key);
      InsertWithKey(last, SortDescending(init, key), key, v);
      WithKeyAppend(init, [last], key, v);
      assert s == init + [last];
    }
  }

  /** Truncating keeps a prefix of the elements with each key. */
  lemma WithKeyPrefix<T>(s: seq<T>, m: nat, key: T -> real, v: real)
    requires m <= |s|
    ensures WithKey(s[..m], key, v) <= WithKey(s, key, v)
  {
    WithKeyAppend(s[..m], s[m..], key, v);
    assert s == s[..m] + s[m..];
  }
}
