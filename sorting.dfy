/** The source sorts with JavaScript's `Array.prototype.sort` and a numeric
    comparator (`(a, b) => key(a) - key(b)`). That sort is stable, so it is
    modelled here as a stable insertion sort on an integer key, together
    with the three facts callers rely on: the result is ordered by the key,
    it is a permutation of the input, and elements with equal keys keep
    their input order. */
module Sorting {

  /** `s` is in nondecreasing key order. */
  predicate SortedBy<T>(s: seq<T>, key: T -> int)
  {
    forall i, j :: 0 <= i < j < |s| ==> key(s[i]) <= key(s[j])
  }

  /** The elements of `s` whose key is `k`, in their order in `s`. */
  function WithKey<T>(s: seq<T>, key: T -> int, k: int): (r: seq<T>)
    ensures |r| <= |s|
  {
    if s == [] then []
    else (if key(s[0]) == k then [s[0]] else []) + WithKey(s[1..], key, k)
  }

  /** Places `x` in front of the first element whose key is not smaller. */
  function Insert<T>(x: T, t: seq<T>, key: T -> int): (r: seq<T>)
    ensures |r| == |t| + 1
  {
    if t == [] || key(x) <= key(t[0]) then [x] + t else [t[0]] + Insert(x, t[1..], key)
  }

  /** Inserting adds exactly `x`. */
  lemma {:induction false} InsertMultiset<T>(x: T, t: seq<T>, key: T -> int)
    ensures multiset(Insert(x, t, key)) == multiset(t) + multiset{x}
  {
    if t != [] && key(x) > key(t[0]) {
      InsertMultiset(x, t[1..], key);
      assert t == [t[0]] + t[1..];
    }
  }

  /** Inserting into a sorted sequence keeps it sorted. */
  lemma {:induction false} InsertSorted<T>(x: T, t: seq<T>, key: T -> int)
    requires SortedBy(t, key)
    ensures SortedBy(Insert(x, t, key), key)
  {
    if t != [] && key(x) > key(t[0]) {
      var rest := Insert(x, t[1..], key);
      InsertSorted(x, t[1..], key);
      assert key(t[0]) <= key(rest[0]) by {
        if t[1..] == [] || key(x) <= key(t[1]) {
          assert rest[0] == x;
        } else {
          assert rest[0] == t[1];
        }
      }
      var r := [t[0]] + rest;
      forall i, j | 0 <= i < j < |r|
        ensures key(r[i]) <= key(r[j])
      {
        if i == 0 {
          assert key(rest[0]) <= key(rest[j - 1]) || j - 1 == 0;
        } else {
          assert r[i] == rest[i - 1] && r[j] == rest[j - 1];
        }
      }
    }
  }

  /** Stable insertion sort by `key`. */
  function SortBy<T>(s: seq<T>, key: T -> int): (r: seq<T>)
    ensures |r| == |s|
  {
    if s == [] then [] else Insert(s[0], SortBy(s[1..], key), key)
  }

  /** The result of `SortBy` is ordered by the key and is a permutation of the input. */
  lemma {:induction false} SortBySpec<T>(s: seq<T>, key: T -> int)
    ensures SortedBy(SortBy(s, key), key)
    ensures multiset(SortBy(s, key)) == multiset(s)
  {
    if s != [] {
      SortBySpec(s[1..], key);
      InsertSorted(s[0], SortBy(s[1..], key), key);
      InsertMultiset(s[0], SortBy(s[1..], key), key);
      assert s == [s[0]] + s[1..];
    }
  }

  lemma {:induction false} InsertWithKey<T>(x: T, t: seq<T>, key: T -> int, k: int)
    ensures WithKey(Insert(x, t, key), key, k)
         == (if key(x) == k then [x] else []) + WithKey(t, key, k)
  {
    var r := Insert(x, t, key);
    if t == [] || key(x) <= key(t[0]) {
      assert r[0] == x && r[1..] == t;
    } else {
      var rest := Insert(x, t[1..], key);
      assert r[0] == t[0] && r[1..] == rest;
      InsertWithKey(x, t[1..], key, k);
      var wx := if key(x) == k then [x] else [];
      var w0 := if key(t[0]) == k then [t[0]] else [];
      assert WithKey(r, key, k) == w0 + (wx + WithKey(t[1..], key, k));
      assert WithKey(t, key, k) == w0 + WithKey(t[1..], key, k);
      assert wx == [] || w0 == [];
    }
  }

  /** Stability: for every key value, the elements carrying it appear in the
      sorted result exactly in their input order. */
  lemma {:induction false} SortByStable<T>(s: seq<T>, key: T -> int, k: int)
    ensures WithKey(SortBy(s, key), key, k) == WithKey(s, key, k)
  {
    if s != [] {
      SortByStable(s[1..], key, k);
      InsertWithKey(s[0], SortBy(s[1..], key), key, k);
    }
  }

  /** Sorting an already sorted sequence changes nothing. */
  lemma {:induction false} SortBySortedIdentity<T>(s: seq<T>, key: T -> int)
    requires SortedBy(s, key)
    ensures SortBy(s, key) == s
  {
    if s != [] {
      assert SortedBy(s[1..], key);
      SortBySortedIdentity(s[1..], key);
      assert s == [s[0]] + s[1..];
    }
  }

  /** `f` takes different values at different positions of `s`. */
  ghost predicate InjectiveOn<T, U>(s: seq<T>, f: T -> U)
  {
    forall i, j :: 0 <= i < j < |s| ==> f(s[i]) != f(s[j])
  }

  lemma {:induction false} InsertInjective<T, U>(x: T, t: seq<T>, key: T -> int, f: T -> U)
    requires InjectiveOn(t, f)
    requires forall k :: 0 <= k < |t| ==> f(t[k]) != f(x)
    ensures InjectiveOn(Insert(x, t, key), f)
  {
    var r := Insert(x, t, key);
    if t == [] || key(x) <= key(t[0]) {
      forall i, j | 0 <= i < j < |r|
        ensures f(r[i]) != f(r[j])
      {
        assert r[j] == t[j - 1];
        if i > 0 {
          assert r[i] == t[i - 1];
        }
      }
    } else {
      var rest := Insert(x, t[1..], key);
      InsertInjective(x, t[1..], key, f);
      InsertMultiset(x, t[1..], key);
      forall k | 0 <= k < |rest|
        ensures f(rest[k]) != f(t[0])
      {
        assert rest[k] in multiset(t[1..]) + multiset{x};
        if rest[k] != x {
          var k' :| 0 <= k' < |t[1..]| && t[1..][k'] == rest[k];
          assert t[k' + 1] == rest[k];
        }
      }
      forall i, j | 0 <= i < j < |r|
        ensures f(r[i]) != f(r[j])
      {
        assert r[j] == rest[j - 1];
        if i > 0 {
          assert r[i] == rest[i - 1];
        }
      }
    }
  }

  /** Sorting keeps `f` injective: it only permutes the elements. */
  lemma {:induction false} SortByInjective<T, U>(s: seq<T>, key: T -> int, f: T -> U)
    requires InjectiveOn(s, f)
    ensures InjectiveOn(SortBy(s, key), f)
  {
    if s != [] {
      var t := SortBy(s[1..], key);
      SortByInjective(s[1..], key, f);
      SortBySpec(s[1..], key);
      forall k | 0 <= k < |t|
        ensures f(t[k]) != f(s[0])
      {
        assert t[k] in multiset(s[1..]);
        var k' :| 0 <= k' < |s[1..]| && s[1..][k'] == t[k];
        assert s[k' + 1] == t[k];
      }
      InsertInjective(s[0], t, key, f);
    }
  }

  /** The identity key, for sorting integers by value. */
  function IntKey(x: int): int
  {
    x
  }

  lemma SortedTail<T>(s: seq<T>, key: T -> int)
    requires s != [] && SortedBy(s, key)
    ensures SortedBy(s[1..], key)
    ensures forall k :: 0 <= k < |s| ==> key(s[0]) <= key(s[k])
  {
    forall x, y | 0 <= x < y < |s| - 1
      ensures key(s[1..][x]) <= key(s[1..][y])
    {
      assert s[1..][x] == s[x + 1] && s[1..][y] == s[y + 1];
    }
  }

  /** Sorted integer sequences with the same elements start with the same
      (smallest) element, and what follows has the same elements. */
  lemma SortedIntsHeads(a: seq<int>, b: seq<int>)
    requires a != [] && b != []
    requires SortedBy(a, IntKey) && SortedBy(b, IntKey) && multiset(a) == multiset(b)
    ensures a[0] == b[0] && multiset(a[1..]) == multiset(b[1..])
  {
    assert a[0] in multiset(b) && b[0] in multiset(a);
    var i :| 0 <= i < |b| && b[i] == a[0];
    var j :| 0 <= j < |a| && a[j] == b[0];
    assert b[0] <= a[0] by {
      if i > 0 {
        assert IntKey(b[0]) <= IntKey(b[i]);
      }
    }
    assert a[0] <= b[0] by {
      if j > 0 {
        assert IntKey(a[0]) <= IntKey(a[j]);
      }
    }
    calc {
      multiset(a[1..]);
      { assert a == [a[0]] + a[1..]; }
      multiset(a) - multiset{a[0]};
      multiset(b) - multiset{b[0]};
      { assert b == [b[0]] + b[1..]; }
      multiset(b[1..]);
    }
  }

  /** Two sorted sequences of integers with the same elements are equal:
      a multiset has one sorted arrangement. */
  lemma {:induction false} SortedIntsUnique(a: seq<int>, b: seq<int>)
    requires SortedBy(a, IntKey) && SortedBy(b, IntKey) && multiset(a) == multiset(b)
    ensures a == b
  {
    assert |a| == |multiset(a)| && |b| == |multiset(b)|;
    if a != [] {
      SortedIntsHeads(a, b);
      SortedTail(a, IntKey);
      SortedTail(b, IntKey);
      SortedIntsUnique(a[1..], b[1..]);
      assert a == [a[0]] + a[1..] && b == [b[0]] + b[1..];
    }
  }

  /** `a` comes no later than `b` when compared by `key1` and, on a tie, by
      `key2` (a comparator `key1(a) - key1(b) || key2(a) - key2(b)`). */
  predicate LexLe<T>(a: T, b: T, key1: T -> int, key2: T -> int)
  {
    key1(a) < key1(b) || (key1(a) == key1(b) && key2(a) <= key2(b))
  }

  /** `s` is in nondecreasing order by `key1`, then `key2`. */
  predicate SortedByLex<T>(s: seq<T>, key1: T -> int, key2: T -> int)
  {
    forall i, j :: 0 <= i < j < |s| ==> LexLe(s[i], s[j], key1, key2)
  }

  function InsertLex<T>(x: T, t: seq<T>, key1: T -> int, key2: T -> int): (r: seq<T>)
    ensures |r| == |t| + 1
  {
    if t == [] || LexLe(x, t[0], key1, key2) then [x] + t
    else [t[0]] + InsertLex(x, t[1..], key1, key2)
  }

  lemma {:induction false} InsertLexMultiset<T>(x: T, t: seq<T>, key1: T -> int, key2: T -> int)
    ensures multiset(InsertLex(x, t, key1, key2)) == multiset(t) + multiset{x}
  {
    if t != [] && !LexLe(x, t[0], key1, key2) {
      InsertLexMultiset(x, t[1..], key1, key2);
      assert t == [t[0]] + t[1..];
    }
  }

  lemma {:induction false} InsertLexSorted<T>(x: T, t: seq<T>, key1: T -> int, key2: T -> int)
    requires SortedByLex(t, key1, key2)
    ensures SortedByLex(InsertLex(x, t, key1, key2), key1, key2)
  {
    if t != [] && !LexLe(x, t[0], key1, key2) {
      var rest := InsertLex(x, t[1..], key1, key2);
      InsertLexSorted(x, t[1..], key1, key2);
      assert LexLe(t[0], rest[0], key1, key2) by {
        if t[1..] == [] || LexLe(x, t[1], key1, key2) {
          assert rest[0] == x;
        } else {
          assert rest[0] == t[1];
        }
      }
      var r := [t[0]] + rest;
      forall i, j | 0 <= i < j < |r|
        ensures LexLe(r[i], r[j], key1, key2)
      {
        if i == 0 {
          assert LexLe(rest[0], rest[j - 1], key1, key2) || j - 1 == 0;
        } else {
          assert r[i] == rest[i - 1] && r[j] == rest[j - 1];
        }
      }
    }
  }

  /** Stable insertion sort by `key1`, then `key2`. */
  function SortByLex<T>(s: seq<T>, key1: T -> int, key2: T -> int): (r: seq<T>)
    ensures |r| == |s|
  {
    if s == [] then [] else InsertLex(s[0], SortByLex(s[1..], key1, key2), key1, key2)
  }

  /** The result of `SortByLex` is in order and is a permutation of the input. */
  lemma {:induction false} SortByLexSpec<T>(s: seq<T>, key1: T -> int, key2: T -> int)
    ensures SortedByLex(SortByLex(s, key1, key2), key1, key2)
    ensures multiset(SortByLex(s, key1, key2)) == multiset(s)
  {
    if s != [] {
      SortByLexSpec(s[1..], key1, key2);
      InsertLexSorted(s[0], SortByLex(s[1..], key1, key2), key1, key2);
      InsertLexMultiset(s[0], SortByLex(s[1..], key1, key2), key1, key2);
      assert s == [s[0]] + s[1..];
    }
  }
}
