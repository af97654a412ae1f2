/**
 * The stable sort Python's `list.sort` and `sorted` perform, by a numeric
 * key, and `sorted(set(...))` on strings.
 */
module Sorting {

  predicate SortedBy<T>(s: seq<T>, key: T -> real) {
    forall i, j :: 0 <= i < j < |s| ==> key(s[i]) <= key(s[j])
  }

  /** Inserts `x` before the first element whose key is larger, so equal keys keep their order. */
  function Insert<T(==)>(t: seq<T>, x: T, key: T -> real): (r: seq<T>)
    ensures multiset(r) == multiset(t) + multiset{x}
    ensures |r| == |t| + 1
  {
    if |t| == 0 || key(x) < key(t[0]) then [x] + t
    else
      assert t == [t[0]] + t[1..];
      [t[0]] + Insert(t[1..], x, key)
  }

  lemma {:induction false} InsertSorted<T>(t: seq<T>, x: T, key: T -> real)
    requires SortedBy(t, key)
    ensures SortedBy(Insert(t, x, key), key)
  {
    if |t| > 0 && key(x) >= key(t[0]) {
      var rest := Insert(t[1..], x, key);
      InsertSorted(t[1..], x, key);
      forall j | 0 <= j < |rest| ensures key(t[0]) <= key(rest[j]) {
        assert rest[j] in multiset(rest);
        if rest[j] != x {
          assert rest[j] in multiset(t[1..]);
          var m :| 0 <= m < |t[1..]| && t[1..][m] == rest[j];
          assert t[m + 1] == rest[j];
        }
      }
      var r := [t[0]] + rest;
      forall i, j | 0 <= i < j < |r| ensures key(r[i]) <= key(r[j]) {
        if i > 0 { assert r[i] == rest[i - 1] && r[j] == rest[j - 1]; }
      }
    }
  }

  /** `sorted(s, key=key)`: insertion sort, stable. */
  function SortBy<T(==)>(s: seq<T>, key: T -> real): (r: seq<T>)
    ensures SortedBy(r, key)
    ensures multiset(r) == multiset(s)
    ensures |r| == |s|
  {
    if |s| == 0 then []
    else
      assert s == s[..|s| - 1] + [s[|s| - 1]];
      InsertSorted(SortBy(s[..|s| - 1], key), s[|s| - 1], key);
      Insert(SortBy(s[..|s| - 1], key), s[|s| - 1], key)
  }

  /** An element with the largest key goes last. */
  lemma {:induction false} InsertLast<T>(t: seq<T>, x: T, key: T -> real)
    requires forall i :: 0 <= i < |t| ==> key(t[i]) <= key(x)
    ensures Insert(t, x, key) == t + [x]
  {
    if |t| > 0 {
      InsertLast(t[1..], x, key);
      assert t == [t[0]] + t[1..];
    }
  }

  /** A list already in key order is left as it is. */
  lemma {:induction false} SortBySorted<T>(s: seq<T>, key: T -> real)
    requires SortedBy(s, key)
    ensures SortBy(s, key) == s
  {
    if |s| > 0 {
      var init, x := s[..|s| - 1], s[|s| - 1];
      assert s == init + [x];
      assert SortedBy(init, key) by {
        forall i, j | 0 <= i < j < |init| ensures key(init[i]) <= key(init[j]) {
          assert init[i] == s[i] && init[j] == s[j];
        }
      }
      SortBySorted(init, key);
      forall i | 0 <= i < |init| ensures key(init[i]) <= key(x) {
        assert init[i] == s[i];
      }
      InsertLast(init, x, key);
    }
  }

  /** The elements whose key is `k`, in order. */
  function WithKey<T>(s: seq<T>, key: T -> real, k: real): seq<T> {
    if |s| == 0 then []
    else (if key(s[0]) == k then [s[0]] else []) + WithKey(s[1..], key, k)
  }

  lemma {:induction false} WithKeyAppend<T>(a: seq<T>, b: seq<T>, key: T -> real, k: real)
    ensures WithKey(a + b, key, k) == WithKey(a, key, k) + WithKey(b, key, k)
  {
    if |a| > 0 {
      assert (a + b)[0] == a[0];
      assert (a + b)[1..] == a[1..] + b;
      WithKeyAppend(a[1..], b, key, k);
    } else {
      assert a + b == b;
    }
  }

  lemma {:induction false} WithKeyNone<T>(s: seq<T>, key: T -> real, k: real)
    requires forall i :: 0 <= i < |s| ==> key(s[i]) != k
    ensures WithKey(s, key, k) == []
  {
    if |s| > 0 {
      WithKeyNone(s[1..], key, k);
    }
  }

  /** The first element counts towards its key, then the rest. */
  lemma WithKeyCons<T>(x: T, t: seq<T>, key: T -> real, k: real)
    ensures WithKey([x] + t, key, k) == (if key(x) == k then [x] else []) + WithKey(t, key, k)
  {
    assert ([x] + t)[1..] == t;
  }

  /** An element placed before larger keys only: its key has nothing else to match in `t`. */
  lemma WithKeyFront<T>(t: seq<T>, x: T, key: T -> real, k: real)
    requires SortedBy(t, key)
    requires |t| == 0 || key(x) < key(t[0])
    ensures WithKey([x] + t, key, k) == WithKey(t, key, k) + WithKey([x], key, k)
  {
    WithKeyCons(x, [], key, k);
    WithKeyCons(x, t, key, k);
    if key(x) == k {
      assert forall i :: 0 <= i < |t| ==> key(t[0]) <= key(t[i]);
      WithKeyNone(t, key, k);
    }
  }

  lemma {:induction false} WithKeyInsert<T>(t: seq<T>, x: T, key: T -> real, k: real)
    requires SortedBy(t, key)
    ensures WithKey(Insert(t, x, key), key, k) == WithKey(t, key, k) + WithKey([x], key, k)
  {
    if |t| == 0 || key(x) < key(t[0]) {
      WithKeyFront(t, x, key, k);
    } else {
      var rest := Insert(t[1..], x, key);
      assert SortedBy(t[1..], key);
      WithKeyInsert(t[1..], x, key, k);
      WithKeyCons(t[0], rest, key, k);
      WithKeyCons(t[0], t[1..], key, k);
      assert [t[0]] + t[1..] == t;
    }
  }

  /** Stability: the elements sharing a key appear in the sorted list in their original order. */
  lemma {:induction false} SortByStable<T>(s: seq<T>, key: T -> real, k: real)
    ensures WithKey(SortBy(s, key), key, k) == WithKey(s, key, k)
  {
    if |s| > 0 {
      var init, x := s[..|s| - 1], s[|s| - 1];
      SortByStable(init, key, k);
      WithKeyInsert(SortBy(init, key), x, key, k);
      assert s == init + [x];
      WithKeyAppend(init, [x], key, k);
    }
  }

  /** Python's ordering of strings: code point by code point, a proper prefix first. */
  predicate StrLess(a: string, b: string)
    decreases |a|
  {
    |b| > 0 && (|a| == 0 || a[0] < b[0] || (a[0] == b[0] && StrLess(a[1..], b[1..])))
  }

  lemma {:induction false} StrLessIrreflexive(a: string)
    ensures !StrLess(a, a)
    decreases |a|
  {
    if |a| > 0 { StrLessIrreflexive(a[1..]); }
  }

  lemma {:induction false} StrLessTransitive(a: string, b: string, c: string)
    requires StrLess(a, b) && StrLess(b, c)
    ensures StrLess(a, c)
    decreases |a|
  {
    if |a| > 0 && a[0] == b[0] && b[0] == c[0] {
      StrLessTransitive(a[1..], b[1..], c[1..]);
    }
  }

  lemma {:induction false} StrLessTotal(a: string, b: string)
    requires a != b
    ensures StrLess(a, b) || StrLess(b, a)
    decreases |a|
  {
    if |a| > 0 && |b| > 0 && a[0] == b[0] {
      assert a[1..] != b[1..] by {
        assert a == [a[0]] + a[1..] && b == [b[0]] + b[1..];
      }
      StrLessTotal(a[1..], b[1..]);
    }
  }

  predicate StrictlySorted(s: seq<string>) {
    forall i, j :: 0 <= i < j < |s| ==> StrLess(s[i], s[j])
  }

  /** Adds `x` to a sorted list of distinct strings unless it is already there. */
  function InsertUnique(t: seq<string>, x: string): (r: seq<string>)
    ensures forall y :: y in r <==> y in t || y == x
  {
    if |t| == 0 then [x]
    else if x == t[0] then t
    else if StrLess(x, t[0]) then [x] + t
    else
      assert t == [t[0]] + t[1..];
      [t[0]] + InsertUnique(t[1..], x)
  }

  lemma {:induction false} InsertUniqueSorted(t: seq<string>, x: string)
    requires StrictlySorted(t)
    ensures StrictlySorted(InsertUnique(t, x))
  {
    if |t| == 0 || x == t[0] {
    } else if StrLess(x, t[0]) {
      var r := [x] + t;
      forall i, j | 0 <= i < j < |r| ensures StrLess(r[i], r[j]) {
        if i == 0 && j > 1 { StrLessTransitive(x, t[0], t[j - 1]); }
      }
    } else {
      StrLessTotal(x, t[0]);
      var rest := InsertUnique(t[1..], x);
      InsertUniqueSorted(t[1..], x);
      forall j | 0 <= j < |rest| ensures StrLess(t[0], rest[j]) {
        assert rest[j] in rest;
        if rest[j] != x {
          var m :| 0 <= m < |t[1..]| && t[1..][m] == rest[j];
          assert t[m + 1] == rest[j];
        }
      }
      var r := [t[0]] + rest;
      forall i, j | 0 <= i < j < |r| ensures StrLess(r[i], r[j]) {
        if i > 0 { assert r[i] == rest[i - 1] && r[j] == rest[j - 1]; }
      }
    }
  }

  /** `sorted(set(s))`. */
  function SortedSet(s: seq<string>): (r: seq<string>)
    ensures StrictlySorted(r)
    ensures forall y :: y in r <==> y in s
  {
    if |s| == 0 then []
    else
      assert s == s[..|s| - 1] + [s[|s| - 1]];
      InsertUniqueSorted(SortedSet(s[..|s| - 1]), s[|s| - 1]);
      InsertUnique(SortedSet(s[..|s| - 1]), s[|s| - 1])
  }

  /** A strictly sorted list has no repeated element. */
  lemma SortedSetDistinct(s: seq<string>)
    ensures forall i, j :: 0 <= i < j < |SortedSet(s)| ==> SortedSet(s)[i] != SortedSet(s)[j]
  {
    var r := SortedSet(s);
    forall i, j | 0 <= i < j < |r| ensures r[i] != r[j] {
      if r[i] == r[j] { StrLessIrreflexive(r[i]); }
    }
  }
}
