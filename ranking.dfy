/**
  Python's `sorted(xs, key=key, reverse=True)`: a stable sort into
  descending key order. Elements whose keys are equal keep the order they
  had in the input.
*/
module Ranking {

  /** The keys never increase along `s`. */
  predicate SortedDesc<T>(s: seq<T>, key: T -> real) {
    forall i, j :: 0 <= i < j < |s| ==> key(s[i]) >= key(s[j])
  }

  /** Puts `x` after every leading element whose key is at least its own. */
  function InsertDesc<T>(x: T, s: seq<T>, key: T -> real): seq<T> {
    if s == [] then [x]
    else if key(s[0]) >= key(x) then [s[0]] + InsertDesc(x, s[1..], key)
    else [x] + s
  }

  /** Sorts the prefix, then inserts the last element behind its equals. */
  function SortDesc<T>(s: seq<T>, key: T -> real): seq<T> {
    if s == [] then [] else InsertDesc(s[|s| - 1], SortDesc(s[..|s| - 1], key), key)
  }

  /** The elements of `s` whose key is `v`, in order. */
  function WithKey<T>(s: seq<T>, key: T -> real, v: real): seq<T> {
    if s == [] then []
    else WithKey(s[..|s| - 1], key, v) + (if key(s[|s| - 1]) == v then [s[|s| - 1]] else [])
  }

  lemma {:induction false} WithKeyAppend<T>(a: seq<T>, b: seq<T>, key: T -> real, v: real)
    ensures WithKey(a + b, key, v) == WithKey(a, key, v) + WithKey(b, key, v)
    decreases |b|
  {
    if b == [] {
      assert a + b == a;
    } else {
      assert (a + b)[..|a + b| - 1] == a + b[..|b| - 1];
      WithKeyAppend(a, b[..|b| - 1], key, v);
    }
  }

  lemma {:induction false} InsertDescElements<T>(x: T, s: seq<T>, key: T -> real)
    ensures multiset(InsertDesc(x, s, key)) == multiset(s) + multiset{x}
  {
    if s != [] && key(s[0]) >= key(x) {
      InsertDescElements(x, s[1..], key);
      assert s == [s[0]] + s[1..];
    }
  }

  lemma {:induction false} InsertDescSorted<T>(x: T, s: seq<T>, key: T -> real)
    requires SortedDesc(s, key)
    ensures SortedDesc(InsertDesc(x, s, key), key)
  {
    var r := InsertDesc(x, s, key);
    if s != [] && key(s[0]) >= key(x) {
      var t := InsertDesc(x, s[1..], key);
      InsertDescSorted(x, s[1..], key);
      InsertDescBelow(x, s[1..], key, key(s[0]));
      assert r == [s[0]] + t;
      forall i, j | 0 <= i < j < |r| ensures key(r[i]) >= key(r[j]) {
        if i == 0 {
          assert r[j] == t[j - 1];
        } else {
          assert r[i] == t[i - 1] && r[j] == t[j - 1];
        }
      }
    } else if s != [] {
      assert r == [x] + s;
      forall i, j | 0 <= i < j < |r| ensures key(r[i]) >= key(r[j]) {
        if i == 0 {
          assert key(s[0]) >= key(s[j - 1]);
        } else {
          assert r[i] == s[i - 1] && r[j] == s[j - 1];
        }
      }
    }
  }

  /** Inserting an element whose key is at most `m` among elements whose keys are at most `m` keeps every key at most `m`. */
  lemma {:induction false} InsertDescBelow<T>(x: T, s: seq<T>, key: T -> real, m: real)
    requires key(x) <= m
    requires forall i :: 0 <= i < |s| ==> key(s[i]) <= m
    ensures forall i :: 0 <= i < |InsertDesc(x, s, key)| ==> key(InsertDesc(x, s, key)[i]) <= m
  {
    var r := InsertDesc(x, s, key);
    if s != [] && key(s[0]) >= key(x) {
      var t := InsertDesc(x, s[1..], key);
      InsertDescBelow(x, s[1..], key, m);
      assert r == [s[0]] + t;
      forall i | 0 <= i < |r| ensures key(r[i]) <= m {
        if i > 0 {
          assert r[i] == t[i - 1];
        }
      }
    } else if s != [] {
      assert r == [x] + s;
      forall i | 0 <= i < |r| ensures key(r[i]) <= m {
        if i > 0 {
          assert r[i] == s[i - 1];
        }
      }
    }
  }

  lemma {:induction false} InsertDescWithKey<T>(x: T, s: seq<T>, key: T -> real, v: real)
    requires SortedDesc(s, key)
    ensures WithKey(InsertDesc(x, s, key), key, v) == WithKey(s, key, v) + WithKey([x], key, v)
  {
    var r := InsertDesc(x, s, key);
    assert [x][..0] == [];
    if s == [] {
    } else if key(s[0]) >= key(x) {
      var t := InsertDesc(x, s[1..], key);
      InsertDescWithKey(x, s[1..], key, v);
      assert r == [s[0]] + t;
      assert s == [s[0]] + s[1..];
      WithKeyAppend([s[0]], t, key, v);
      WithKeyAppend([s[0]], s[1..], key, v);
    } else {
      assert r == [x] + s;
      WithKeyAppend([x], s, key, v);
      // every key in s is below key(x): none of them shares x's key
      WithKeyNone(s, key, key(x));
    }
  }

  /** No element of a descending sequence whose first key is below `w` has key `w`. */
  lemma {:induction false} WithKeyNone<T>(s: seq<T>, key: T -> real, w: real)
    requires SortedDesc(s, key)
    requires s != [] ==> key(s[0]) < w
    ensures WithKey(s, key, w) == []
    decreases |s|
  {
    if s != [] {
      WithKeyNone(s[..|s| - 1], key, w);
    }
  }

  /**
    `sorted(s, key=key, reverse=True)` orders by descending key, is a
    permutation of its input, and is stable: for every key value the
    elements carrying it appear in their input order.
  */
  lemma {:induction false} SortDescCorrect<T>(s: seq<T>, key: T -> real)
    ensures SortedDesc(SortDesc(s, key), key)
    ensures multiset(SortDesc(s, key)) == multiset(s)
    ensures forall v :: WithKey(SortDesc(s, key), key, v) == WithKey(s, key, v)
  {
    if s != [] {
      var init, x := s[..|s| - 1], s[|s| - 1];
      SortDescCorrect(init, key);
      InsertDescSorted(x, SortDesc(init, key), key);
      InsertDescElements(x, SortDesc(init, key), key);
      assert s == init + [x];
      forall v ensures WithKey(SortDesc(s, key), key, v) == WithKey(s, key, v) {
        InsertDescWithKey(x, SortDesc(init, key), key, v);
        WithKeyAppend(init, [x], key, v);
      }
    }
  }

  /** A sort keeps the set of elements, so keys that were distinct stay distinct. */
  lemma SortDescElements<T>(s: seq<T>, key: T -> real)
    ensures |SortDesc(s, key)| == |s|
    ensures forall x :: x in SortDesc(s, key) <==> x in s
  {
    SortDescCorrect(s, key);
    assert |multiset(SortDesc(s, key))| == |multiset(s)|;
    forall x ensures x in SortDesc(s, key) <==> x in s {
      assert x in SortDesc(s, key) <==> x in multiset(SortDesc(s, key));
    }
  }

  /** No two elements of `s` share a value of `f`. */
  predicate DistinctBy<T>(s: seq<T>, f: T -> int) {
    forall i, j :: 0 <= i < j < |s| ==> f(s[i]) != f(s[j])
  }

  lemma {:induction false} InsertDescDistinct<T>(x: T, s: seq<T>, key: T -> real, f: T -> int)
    requires DistinctBy(s, f)
    requires forall y :: y in s ==> f(y) != f(x)
    ensures DistinctBy(InsertDesc(x, s, key), f)
  {
    if s != [] && key(s[0]) >= key(x) {
      var t := InsertDesc(x, s[1..], key);
      InsertDescDistinct(x, s[1..], key, f);
      InsertDescAvoids(x, s[1..], key, f, f(s[0]));
      var r := [s[0]] + t;
      forall i, j | 0 <= i < j < |r| ensures f(r[i]) != f(r[j]) {
        if i == 0 {
          assert r[j] == t[j - 1];
        } else {
          assert r[i] == t[i - 1] && r[j] == t[j - 1];
        }
      }
    } else if s != [] {
      var r := [x] + s;
      forall i, j | 0 <= i < j < |r| ensures f(r[i]) != f(r[j]) {
        if i == 0 {
          assert r[j] == s[j - 1] && r[j] in s;
        } else {
          assert r[i] == s[i - 1] && r[j] == s[j - 1];
        }
      }
    }
  }

  /** Inserting an element whose `f` is not `v` among elements whose `f` is not `v` gives no element whose `f` is `v`. */
  lemma {:induction false} InsertDescAvoids<T>(x: T, s: seq<T>, key: T -> real, f: T -> int, v: int)
    requires f(x) != v
    requires forall i :: 0 <= i < |s| ==> f(s[i]) != v
    ensures forall i :: 0 <= i < |InsertDesc(x, s, key)| ==> f(InsertDesc(x, s, key)[i]) != v
  {
    var r := InsertDesc(x, s, key);
    if s != [] && key(s[0]) >= key(x) {
      var t := InsertDesc(x, s[1..], key);
      InsertDescAvoids(x, s[1..], key, f, v);
      assert r == [s[0]] + t;
      forall i | 0 <= i < |r| ensures f(r[i]) != v {
        if i > 0 {
          assert r[i] == t[i - 1];
        }
      }
    } else if s != [] {
      assert r == [x] + s;
      forall i | 0 <= i < |r| ensures f(r[i]) != v {
        if i > 0 {
          assert r[i] == s[i - 1];
        }
      }
    }
  }

  /** Sorting keeps elements apart: if `f` told them apart before, it still does. */
  lemma {:induction false} SortDescDistinct<T>(s: seq<T>, key: T -> real, f: T -> int)
    requires DistinctBy(s, f)
    ensures DistinctBy(SortDesc(s, key), f)
  {
    if s != [] {
      var init, x := s[..|s| - 1], s[|s| - 1];
      assert DistinctBy(init, f);
      SortDescDistinct(init, key, f);
      SortDescCorrect(init, key);
      forall y | y in SortDesc(init, key) ensures f(y) != f(x) {
        assert y in multiset(SortDesc(init, key));
        assert y in multiset(init);
        var k :| 0 <= k < |init| && init[k] == y;
        assert s[k] == y && s[|s| - 1] == x;
      }
      InsertDescDistinct(x, SortDesc(init, key), key, f);
    }
  }
}
