/**
 * Python's `sorted(xs, key=k)` and `sorted(xs, key=k, reverse=True)` for string keys:
 * a stable sort, here an insertion sort, proved to order the keys, to permute its input
 * and to keep items with equal keys in their original relative order.
 */
module Sorting {
  import opened Strings

  /** `a` may precede `b` in the result: `a <= b`, or `a >= b` when `descending`. */
  predicate KeyBefore(a: string, b: string, descending: bool) {
    if descending then StrLe(b, a) else StrLe(a, b)
  }

  lemma KeyBeforeTotal(a: string, b: string, descending: bool)
    ensures KeyBefore(a, b, descending) || KeyBefore(b, a, descending)
  {
    StrLeTotal(a, b);
  }

  lemma KeyBeforeTransitive(a: string, b: string, c: string, descending: bool)
    requires KeyBefore(a, b, descending) && KeyBefore(b, c, descending)
    ensures KeyBefore(a, c, descending)
  {
    if descending { StrLeTransitive(c, b, a); } else { StrLeTransitive(a, b, c); }
  }

  predicate SortedBy<T>(s: seq<T>, key: T -> string, descending: bool) {
    forall i, j :: 0 <= i < j < |s| ==> KeyBefore(key(s[i]), key(s[j]), descending)
  }

  /** The items of `s` whose key is `k`, in their order in `s`. */
  function WithKey<T>(s: seq<T>, key: T -> string, k: string): seq<T> {
    if s == [] then [] else (if key(s[0]) == k then [s[0]] else []) + WithKey(s[1..], key, k)
  }

  /** `x` goes before the first item it may precede, so it stays ahead of items with an equal key. */
  function Insert<T>(x: T, t: seq<T>, key: T -> string, descending: bool): seq<T> {
    if t == [] then [x]
    else if KeyBefore(key(x), key(t[0]), descending) then [x] + t
    else [t[0]] + Insert(x, t[1..], key, descending)
  }

  function SortByKey<T>(s: seq<T>, key: T -> string, descending: bool): seq<T> {
    if s == [] then [] else Insert(s[0], SortByKey(s[1..], key, descending), key, descending)
  }

  lemma {:induction false} InsertPermutes<T>(x: T, t: seq<T>, key: T -> string, descending: bool)
    ensures multiset(Insert(x, t, key, descending)) == multiset(t) + multiset{x}
  {
    if t != [] && !KeyBefore(key(x), key(t[0]), descending) {
      InsertPermutes(x, t[1..], key, descending);
      assert t == [t[0]] + t[1..];
    }
  }

  lemma {:induction false} InsertSorted<T>(x: T, t: seq<T>, key: T -> string, descending: bool)
    requires SortedBy(t, key, descending)
    ensures SortedBy(Insert(x, t, key, descending), key, descending)
  {
    var r := Insert(x, t, key, descending);
    if t == [] {
    } else if KeyBefore(key(x), key(t[0]), descending) {
      assert r == [x] + t;
      forall i, j | 0 <= i < j < |r| ensures KeyBefore(key(r[i]), key(r[j]), descending) {
        if i == 0 && j > 1 {
          KeyBeforeTransitive(key(x), key(t[0]), key(t[j - 1]), descending);
        }
      }
    } else {
      var rest := Insert(x, t[1..], key, descending);
      assert r == [t[0]] + rest;
      InsertSorted(x, t[1..], key, descending);
      InsertPermutes(x, t[1..], key, descending);
      KeyBeforeTotal(key(x), key(t[0]), descending);
      forall j | 0 < j < |r| ensures KeyBefore(key(r[0]), key(r[j]), descending) {
        assert r[j] in multiset(rest);
        if r[j] != x {
          assert r[j] in multiset(t[1..]);
          var m :| 0 <= m < |t[1..]| && t[1..][m] == r[j];
          assert t[m + 1] == r[j];
        }
      }
    }
  }

  /** Inserting `x` puts it ahead of every item with an equal key and keeps their order. */
  lemma {:induction false} InsertStable<T>(x: T, t: seq<T>, key: T -> string, descending: bool, k: string)
    ensures WithKey(Insert(x, t, key, descending), key, k) == (if key(x) == k then [x] else []) + WithKey(t, key, k)
  {
    var r := Insert(x, t, key, descending);
    if t == [] {
      assert r[1..] == [];
    } else if KeyBefore(key(x), key(t[0]), descending) {
      assert r[1..] == t;
    } else {
      var rest := Insert(x, t[1..], key, descending);
      assert r[0] == t[0] && r[1..] == rest;
      InsertStable(x, t[1..], key, descending, k);
      if key(x) == k {
        KeyBeforeTotal(k, k, descending);
      }
      var head := if key(t[0]) == k then [t[0]] else [];
      assert WithKey(t, key, k) == head + WithKey(t[1..], key, k);
      assert WithKey(r, key, k) == head + WithKey(rest, key, k);
    }
  }

  /** `sorted` permutes its input. */
  lemma {:induction false} SortByKeyPermutes<T>(s: seq<T>, key: T -> string, descending: bool)
    ensures multiset(SortByKey(s, key, descending)) == multiset(s)
    ensures |SortByKey(s, key, descending)| == |s|
  {
    if s != [] {
      SortByKeyPermutes(s[1..], key, descending);
      InsertPermutes(s[0], SortByKey(s[1..], key, descending), key, descending);
      assert s == [s[0]] + s[1..];
      var r := SortByKey(s, key, descending);
      assert |r| == |multiset(r)|;
    }
  }

  /** `sorted` orders its result by key. */
  lemma {:induction false} SortByKeySorted<T>(s: seq<T>, key: T -> string, descending: bool)
    ensures SortedBy(SortByKey(s, key, descending), key, descending)
  {
    if s != [] {
      SortByKeySorted(s[1..], key, descending);
      InsertSorted(s[0], SortByKey(s[1..], key, descending), key, descending);
    }
  }

  /** `sorted` is stable: the items with any one key keep their relative order. */
  lemma {:induction false} SortByKeyStable<T>(s: seq<T>, key: T -> string, descending: bool, k: string)
    ensures WithKey(SortByKey(s, key, descending), key, k) == WithKey(s, key, k)
  {
    if s != [] {
      SortByKeyStable(s[1..], key, descending, k);
      InsertStable(s[0], SortByKey(s[1..], key, descending), key, descending, k);
    }
  }

  /** Sorting input that is already in order changes nothing. */
  lemma {:induction false} SortedUnchanged<T>(s: seq<T>, key: T -> string, descending: bool)
    requires SortedBy(s, key, descending)
    ensures SortByKey(s, key, descending) == s
  {
    if s != [] {
      assert SortedBy(s[1..], key, descending);
      SortedUnchanged(s[1..], key, descending);
      assert s == [s[0]] + s[1..];
    }
  }
}
