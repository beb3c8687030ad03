/** `Array.prototype.sort` as the pages and the dashboard use it. JavaScript's
    sort is stable, so it is modelled by a stable insertion sort on an integer
    key (a comparator `(a, b) => key(a) - key(b)`; newest-first orders pass the
    negated key). The default sort of string arrays (no comparator) compares
    strings character by character and is modelled by `SortStrings`. */
module Sorting {

  // ---------------------------------------------------------------------------
  // Sorting by an integer key

  predicate SortedBy<T>(s: seq<T>, key: T -> int) {
    forall i, j :: 0 <= i < j < |s| ==> key(s[i]) <= key(s[j])
  }

  /** Inserts `x` before the first element whose key is not smaller. */
  function InsertBy<T>(x: T, s: seq<T>, key: T -> int): seq<T> {
    if s == [] then [x]
    else if key(x) <= key(s[0]) then [x] + s
    else [s[0]] + InsertBy(x, s[1..], key)
  }

  function SortBy<T>(s: seq<T>, key: T -> int): seq<T> {
    if s == [] then [] else InsertBy(s[0], SortBy(s[1..], key), key)
  }

  /** The elements of `s` with key `k`, in the order of `s`. */
  function WithKey<T>(s: seq<T>, key: T -> int, k: int): seq<T> {
    if s == [] then []
    else (if key(s[0]) == k then [s[0]] else []) + WithKey(s[1..], key, k)
  }

  /** Inserting an element no smaller than `b` into a list of such elements
      gives a list of such elements. */
  lemma {:induction false} InsertByBound<T>(x: T, s: seq<T>, key: T -> int, b: int)
    requires key(x) >= b
    requires forall i :: 0 <= i < |s| ==> key(s[i]) >= b
    ensures forall i :: 0 <= i < |InsertBy(x, s, key)| ==> key(InsertBy(x, s, key)[i]) >= b
  {
    if s != [] && key(x) > key(s[0]) {
      InsertByBound(x, s[1..], key, b);
    }
  }

  lemma {:induction false} InsertByPermutation<T>(x: T, s: seq<T>, key: T -> int)
    ensures multiset(InsertBy(x, s, key)) == multiset(s) + multiset{x}
  {
    if s != [] && key(x) > key(s[0]) {
      InsertByPermutation(x, s[1..], key);
      assert s == [s[0]] + s[1..];
    }
  }

  lemma {:induction false} InsertBySorted<T>(x: T, s: seq<T>, key: T -> int)
    requires SortedBy(s, key)
    ensures SortedBy(InsertBy(x, s, key), key)
  {
    if s != [] && key(x) > key(s[0]) {
      var tail := s[1..];
      assert SortedBy(tail, key) by {
        forall i, j | 0 <= i < j < |tail| ensures key(tail[i]) <= key(tail[j]) {
          assert tail[i] == s[i + 1] && tail[j] == s[j + 1];
        }
      }
      InsertBySorted(x, tail, key);
      forall i | 0 <= i < |tail| ensures key(tail[i]) >= key(s[0]) {
        assert tail[i] == s[i + 1];
      }
      InsertByBound(x, tail, key, key(s[0]));
      var r := InsertBy(x, s, key);
      var rest := InsertBy(x, tail, key);
      assert r == [s[0]] + rest;
      forall i, j | 0 <= i < j < |r| ensures key(r[i]) <= key(r[j]) {
        assert r[j] == rest[j - 1];
        if i > 0 {
          assert r[i] == rest[i - 1];
        }
      }
    }
  }

  /** The result is ordered by key and holds exactly the input's elements. */
  lemma {:induction false} SortBySortedPermutation<T>(s: seq<T>, key: T -> int)
    ensures SortedBy(SortBy(s, key), key)
    ensures multiset(SortBy(s, key)) == multiset(s)
  {
    if s != [] {
      SortBySortedPermutation(s[1..], key);
      InsertBySorted(s[0], SortBy(s[1..], key), key);
      InsertByPermutation(s[0], SortBy(s[1..], key), key);
      assert s == [s[0]] + s[1..];
    }
  }

  lemma {:induction false} InsertByStable<T>(x: T, s: seq<T>, key: T -> int, k: int)
    ensures WithKey(InsertBy(x, s, key), key, k) == WithKey([x] + s, key, k)
  {
    if s == [] {
    } else if key(x) <= key(s[0]) {
    } else {
      InsertByStable(x, s[1..], key, k);
      assert ([s[0]] + InsertBy(x, s[1..], key))[1..] == InsertBy(x, s[1..], key);
      assert ([x] + s[1..])[1..] == s[1..];
      assert ([x] + s)[1..] == s;
    }
  }

  /** Sorting is stable: elements with equal keys keep their relative order. */
  lemma {:induction false} SortByStable<T>(s: seq<T>, key: T -> int, k: int)
    ensures WithKey(SortBy(s, key), key, k) == WithKey(s, key, k)
  {
    if s != [] {
      SortByStable(s[1..], key, k);
      InsertByStable(s[0], SortBy(s[1..], key), key, k);
      assert ([s[0]] + SortBy(s[1..], key))[1..] == SortBy(s[1..], key);
    }
  }

  lemma {:induction false} SortByLength<T>(s: seq<T>, key: T -> int)
    ensures |SortBy(s, key)| == |s|
  {
    SortBySortedPermutation(s, key);
    assert |multiset(SortBy(s, key))| == |multiset(s)|;
  }

  // ---------------------------------------------------------------------------
  // The default sort of an array of strings

  /** `a` comes no later than `b` in character-by-character order. */
  predicate StrLe(a: string, b: string) {
    a == [] || (b != [] && (a[0] < b[0] || (a[0] == b[0] && StrLe(a[1..], b[1..]))))
  }

  lemma {:induction false} StrLeTotal(a: string, b: string)
    ensures StrLe(a, b) || StrLe(b, a)
  {
    if a != [] && b != [] && a[0] == b[0] {
      StrLeTotal(a[1..], b[1..]);
    }
  }

  lemma {:induction false} StrLeTransitive(a: string, b: string, c: string)
    requires StrLe(a, b) && StrLe(b, c)
    ensures StrLe(a, c)
  {
    if a != [] && a[0] == b[0] && b[0] == c[0] {
      StrLeTransitive(a[1..], b[1..], c[1..]);
    }
  }

  lemma {:induction false} StrLeAntisymmetric(a: string, b: string)
    requires StrLe(a, b) && StrLe(b, a)
    ensures a == b
  {
    if a != [] {
      StrLeAntisymmetric(a[1..], b[1..]);
      assert a == [a[0]] + a[1..] && b == [b[0]] + b[1..];
    }
  }

  predicate StrSorted(s: seq<string>) {
    forall i, j :: 0 <= i < j < |s| ==> StrLe(s[i], s[j])
  }

  function InsertStr(x: string, s: seq<string>): seq<string> {
    if s == [] then [x]
    else if StrLe(x, s[0]) then [x] + s
    else [s[0]] + InsertStr(x, s[1..])
  }

  /** `[...strings].sort()` */
  function SortStrings(s: seq<string>): seq<string> {
    if s == [] then [] else InsertStr(s[0], SortStrings(s[1..]))
  }

  /** Inserting a string no earlier than `b` into a list of such strings
      gives a list of such strings. */
  lemma {:induction false} InsertStrBound(x: string, s: seq<string>, b: string)
    requires StrLe(b, x)
    requires forall i :: 0 <= i < |s| ==> StrLe(b, s[i])
    ensures forall i :: 0 <= i < |InsertStr(x, s)| ==> StrLe(b, InsertStr(x, s)[i])
  {
    if s != [] && !StrLe(x, s[0]) {
      InsertStrBound(x, s[1..], b);
    }
  }

  lemma {:induction false} InsertStrPermutation(x: string, s: seq<string>)
    ensures multiset(InsertStr(x, s)) == multiset(s) + multiset{x}
  {
    if s != [] && !StrLe(x, s[0]) {
      InsertStrPermutation(x, s[1..]);
      assert s == [s[0]] + s[1..];
    }
  }

  lemma {:induction false} InsertStrSorted(x: string, s: seq<string>)
    requires StrSorted(s)
    ensures StrSorted(InsertStr(x, s))
  {
    var r := InsertStr(x, s);
    if s == [] {
    } else if StrLe(x, s[0]) {
      assert r == [x] + s;
      forall i, j | 0 <= i < j < |r| ensures StrLe(r[i], r[j]) {
        assert r[j] == s[j - 1];
        if i == 0 {
          if j > 1 {
            StrLeTransitive(x, s[0], s[j - 1]);
          }
        } else {
          assert r[i] == s[i - 1];
        }
      }
    } else {
      StrLeTotal(x, s[0]);
      var tail := s[1..];
      assert StrSorted(tail) by {
        forall i, j | 0 <= i < j < |tail| ensures StrLe(tail[i], tail[j]) {
          assert tail[i] == s[i + 1] && tail[j] == s[j + 1];
        }
      }
      InsertStrSorted(x, tail);
      forall i | 0 <= i < |tail| ensures StrLe(s[0], tail[i]) {
        assert tail[i] == s[i + 1];
      }
      InsertStrBound(x, tail, s[0]);
      var rest := InsertStr(x, tail);
      assert r == [s[0]] + rest;
      forall i, j | 0 <= i < j < |r| ensures StrLe(r[i], r[j]) {
        assert r[j] == rest[j - 1];
        if i > 0 {
          assert r[i] == rest[i - 1];
        }
      }
    }
  }

  /** The default string sort orders its input and keeps exactly its elements. */
  lemma {:induction false} SortStringsSortedPermutation(s: seq<string>)
    ensures StrSorted(SortStrings(s))
    ensures multiset(SortStrings(s)) == multiset(s)
  {
    if s != [] {
      SortStringsSortedPermutation(s[1..]);
      InsertStrSorted(s[0], SortStrings(s[1..]));
      InsertStrPermutation(s[0], SortStrings(s[1..]));
      assert s == [s[0]] + s[1..];
    }
  }
}
