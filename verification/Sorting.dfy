/** sort.SliceStable on an (order, id) key. The library's sort is modelled by
    insertion; what the source relies on is its contract: sorted, a permutation, stable. */
module Sorting {
  import opened Text

  datatype Key = Key(order: int, id: string)

  predicate KeyLess(a: Key, b: Key) {
    a.order < b.order || (a.order == b.order && StrLess(a.id, b.id))
  }

  lemma KeyOrder(a: Key, b: Key, c: Key)
    ensures !KeyLess(a, a)
    ensures KeyLess(a, b) || KeyLess(b, a) || a == b
    ensures KeyLess(a, b) && KeyLess(b, c) ==> KeyLess(a, c)
  {
    StrLessIrreflexive(a.id);
    StrLessTotal(a.id, b.id);
    if StrLess(a.id, b.id) && StrLess(b.id, c.id) { StrLessTransitive(a.id, b.id, c.id); }
  }

  ghost predicate Sorted<T>(key: T -> Key, s: seq<T>) {
    forall i, j | 0 <= i < j < |s| :: !KeyLess(key(s[j]), key(s[i]))
  }

  /** Insert behind every element whose key is not greater. */
  function Insert<T>(key: T -> Key, x: T, s: seq<T>): (r: seq<T>)
    ensures multiset(r) == multiset(s) + multiset{x}
    ensures |r| == |s| + 1
  {
    if |s| == 0 then [x]
    else if KeyLess(key(x), key(s[0])) then [x] + s
    else
      assert s == [s[0]] + s[1..];
      [s[0]] + Insert(key, x, s[1..])
  }

  function SortByKey<T>(key: T -> Key, s: seq<T>): (r: seq<T>)
    ensures multiset(r) == multiset(s)
    ensures |r| == |s|
  {
    if |s| == 0 then []
    else
      assert s == s[..|s| - 1] + [s[|s| - 1]];
      Insert(key, s[|s| - 1], SortByKey(key, s[..|s| - 1]))
  }

  lemma {:induction false} InsertSorted<T>(key: T -> Key, x: T, s: seq<T>)
    requires Sorted(key, s)
    ensures Sorted(key, Insert(key, x, s))
  {
    if |s| > 0 {
      var r := Insert(key, x, s);
      if KeyLess(key(x), key(s[0])) {
        forall j | 0 < j < |r| ensures !KeyLess(key(r[j]), key(x)) {
          KeyOrder(key(x), key(s[0]), key(r[j]));
          KeyOrder(key(s[0]), key(r[j]), key(x));
          KeyOrder(key(r[j]), key(x), key(s[0]));
        }
      } else {
        InsertSorted(key, x, s[1..]);
        forall j | 0 < j < |r| ensures !KeyLess(key(r[j]), key(s[0])) {
          assert r[j] in multiset(r[1..]);
          assert r[1..] == Insert(key, x, s[1..]);
          assert r[j] == x || r[j] in s[1..];
        }
      }
    }
  }

  lemma {:induction false} SortSorted<T>(key: T -> Key, s: seq<T>)
    ensures Sorted(key, SortByKey(key, s))
  {
    if |s| > 0 {
      SortSorted(key, s[..|s| - 1]);
      InsertSorted(key, s[|s| - 1], SortByKey(key, s[..|s| - 1]));
    }
  }

  ghost function WithKey<T>(key: T -> Key, k: Key, s: seq<T>): seq<T> {
    if |s| == 0 then [] else (if key(s[0]) == k then [s[0]] else []) + WithKey(key, k, s[1..])
  }

  lemma {:induction false} WithKeyAppend<T>(key: T -> Key, k: Key, s: seq<T>, t: seq<T>)
    ensures WithKey(key, k, s + t) == WithKey(key, k, s) + WithKey(key, k, t)
  {
    if |s| == 0 {
      assert s + t == t;
    } else {
      assert (s + t)[1..] == s[1..] + t;
      WithKeyAppend(key, k, s[1..], t);
    }
  }

  lemma {:induction false} InsertStable<T>(key: T -> Key, x: T, s: seq<T>, k: Key)
    requires Sorted(key, s)
    ensures WithKey(key, k, Insert(key, x, s)) == WithKey(key, k, s) + WithKey(key, k, [x])
  {
    if |s| > 0 {
      hide KeyLess, WithKey, Insert;
      if KeyLess(key(x), key(s[0])) {
        InsertAtHead(key, x, s, k);
      } else {
        InsertStable(key, x, s[1..], k);
        InsertBehind(key, x, s[0], s[1..], Insert(key, x, s[1..]), k);
        assert s == [s[0]] + s[1..];
      }
    }
  }

  lemma InsertAtHead<T>(key: T -> Key, x: T, s: seq<T>, k: Key)
    requires Sorted(key, s) && |s| > 0 && KeyLess(key(x), key(s[0]))
    ensures WithKey(key, k, [x] + s) == WithKey(key, k, s) + WithKey(key, k, [x])
  {
    hide WithKey, KeyLess, Sorted;
    WithKeyAppend(key, k, [x], s);
    NotBoth(key, x, s, k);
  }

  lemma InsertBehind<T>(key: T -> Key, x: T, head: T, rest: seq<T>, longer: seq<T>, k: Key)
    requires WithKey(key, k, longer) == WithKey(key, k, rest) + WithKey(key, k, [x])
    ensures WithKey(key, k, [head] + longer) == WithKey(key, k, [head] + rest) + WithKey(key, k, [x])
  {
    hide WithKey;
    WithKeyAppend(key, k, [head], longer);
    WithKeyAppend(key, k, [head], rest);
  }

  /** A key below all keys of the list does not occur in it. */
  lemma NotBoth<T>(key: T -> Key, x: T, s: seq<T>, k: Key)
    requires Sorted(key, s) && |s| > 0 && KeyLess(key(x), key(s[0]))
    ensures WithKey(key, k, [x]) == [] || WithKey(key, k, s) == []
  {
    if key(x) == k { NoneBelow(key, s, k); }
  }

  lemma {:induction false} NoneBelow<T>(key: T -> Key, s: seq<T>, k: Key)
    requires Sorted(key, s) && (|s| > 0 ==> KeyLess(k, key(s[0])))
    ensures WithKey(key, k, s) == []
  {
    if |s| > 0 {
      KeyOrder(k, key(s[0]), k);
      if |s| > 1 {
        KeyOrder(key(s[1]), key(s[0]), k);
        KeyOrder(k, key(s[0]), key(s[1]));
      }
      NoneBelow(key, s[1..], k);
    }
  }

  lemma SortStep<T>(key: T -> Key, s: seq<T>, k: Key)
    requires |s| > 0
    ensures WithKey(key, k, SortByKey(key, s))
         == WithKey(key, k, SortByKey(key, s[..|s| - 1])) + WithKey(key, k, [s[|s| - 1]])
  {
    hide WithKey, Insert, Sorted;
    SortSorted(key, s[..|s| - 1]);
    InsertStable(key, s[|s| - 1], SortByKey(key, s[..|s| - 1]), k);
  }

  lemma WithKeyLast<T>(key: T -> Key, s: seq<T>, k: Key)
    requires |s| > 0
    ensures WithKey(key, k, s) == WithKey(key, k, s[..|s| - 1]) + WithKey(key, k, [s[|s| - 1]])
  {
    hide WithKey;
    WithKeyAppend(key, k, s[..|s| - 1], [s[|s| - 1]]);
    assert s == s[..|s| - 1] + [s[|s| - 1]];
  }

  /** Elements with equal keys keep their order. */
  lemma {:induction false} SortStable<T>(key: T -> Key, s: seq<T>, k: Key)
    ensures WithKey(key, k, SortByKey(key, s)) == WithKey(key, k, s)
  {
    if |s| > 0 {
      hide WithKey, SortByKey;
      SortStable(key, s[..|s| - 1], k);
      SortStep(key, s, k);
      WithKeyLast(key, s, k);
    }
  }

  lemma SameLeast<T>(key: T -> Key, a: seq<T>, b: seq<T>)
    requires multiset(a) == multiset(b) && |a| > 0 && |b| > 0
    requires Sorted(key, a) && Sorted(key, b)
    ensures key(a[0]) == key(b[0]) && b[0] in a
  {
    assert a[0] in multiset(b) && b[0] in multiset(a);
    var i :| 0 <= i < |b| && b[i] == a[0];
    var j :| 0 <= j < |a| && a[j] == b[0];
    KeyOrder(key(a[0]), key(b[0]), key(a[0]));
    KeyOrder(key(b[0]), key(a[0]), key(a[0]));
  }

  ghost predicate KeysIdentify<T(!new)>(key: T -> Key, s: seq<T>) {
    forall x, y | x in s && y in s && key(x) == key(y) :: x == y
  }

  /** Two sorted arrangements of the same elements agree when keys identify elements. */
  lemma {:induction false} SortedUnique<T(!new)>(key: T -> Key, a: seq<T>, b: seq<T>)
    requires multiset(a) == multiset(b)
    requires Sorted(key, a) && Sorted(key, b)
    requires KeysIdentify(key, a)
    ensures a == b
  {
    assert |a| == |multiset(a)|;
    assert |b| == |multiset(b)|;
    if |a| > 0 {
      SameLeast(key, a, b);
      assert a[0] == b[0];
      assert a == [a[0]] + a[1..];
      assert b == [b[0]] + b[1..];
      assert multiset(a[1..]) == multiset(a) - multiset{a[0]};
      assert multiset(b[1..]) == multiset(b) - multiset{b[0]};
      SortedUnique(key, a[1..], b[1..]);
    }
  }
}
