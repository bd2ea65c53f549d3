// Python's ordering of strings and of tuples of strings, and `sorted` with a
// key function: a stable insertion sort over items paired with their keys.

module Sorting {
  /* ---------------- tuple order ---------------- */

  /** Python's `<` on strings: code point by code point, a proper prefix first. */
  predicate StrBelow(a: string, b: string)
    decreases |a|
  {
    if a == [] then b != []
    else b != [] && (a[0] < b[0] || (a[0] == b[0] && StrBelow(a[1..], b[1..])))
  }

  /** Python's `<` on tuples of strings. */
  predicate KeyBelow(a: seq<string>, b: seq<string>)
    decreases |a|
  {
    if a == [] then b != []
    else b != [] && (StrBelow(a[0], b[0]) || (a[0] == b[0] && KeyBelow(a[1..], b[1..])))
  }

  lemma {:induction false} StrBelowIrreflexive(a: string)
    ensures !StrBelow(a, a)
    decreases |a|
  {
    if a != [] {
      StrBelowIrreflexive(a[1..]);
    }
  }

  lemma {:induction false} StrBelowTransitive(a: string, b: string, c: string)
    requires StrBelow(a, b) && StrBelow(b, c)
    ensures StrBelow(a, c)
    decreases |a|
  {
    if a != [] && a[0] == b[0] && b[0] == c[0] {
      StrBelowTransitive(a[1..], b[1..], c[1..]);
    }
  }

  lemma {:induction false} StrBelowTotal(a: string, b: string)
    ensures a == b || StrBelow(a, b) || StrBelow(b, a)
    decreases |a|
  {
    if a != [] && b != [] && a[0] == b[0] {
      StrBelowTotal(a[1..], b[1..]);
      if a[1..] == b[1..] {
        assert a == [a[0]] + a[1..] && b == [b[0]] + b[1..];
      }
    }
  }

  lemma {:induction false} KeyBelowIrreflexive(a: seq<string>)
    ensures !KeyBelow(a, a)
    decreases |a|
  {
    if a != [] {
      StrBelowIrreflexive(a[0]);
      KeyBelowIrreflexive(a[1..]);
    }
  }

  lemma {:induction false} KeyBelowTransitive(a: seq<string>, b: seq<string>, c: seq<string>)
    requires KeyBelow(a, b) && KeyBelow(b, c)
    ensures KeyBelow(a, c)
    decreases |a|
  {
    if a != [] {
      if StrBelow(a[0], b[0]) && StrBelow(b[0], c[0]) {
        StrBelowTransitive(a[0], b[0], c[0]);
      } else if a[0] == b[0] && b[0] == c[0] {
        KeyBelowTransitive(a[1..], b[1..], c[1..]);
      }
    }
  }

  lemma {:induction false} KeyBelowTotal(a: seq<string>, b: seq<string>)
    ensures a == b || KeyBelow(a, b) || KeyBelow(b, a)
    decreases |a|
  {
    if a != [] && b != [] {
      StrBelowTotal(a[0], b[0]);
      if a[0] == b[0] {
        KeyBelowTotal(a[1..], b[1..]);
        if a[1..] == b[1..] {
          assert a == [a[0]] + a[1..] && b == [b[0]] + b[1..];
        }
      }
    }
  }

  /* ---------------- sorted() ---------------- */

  /** An item with its key tuple, computed once as `sorted(key=...)` does. */
  datatype Keyed<T> = Keyed(key: seq<string>, item: T)

  /** The keys never decrease along `s`. */
  predicate Ordered<T>(s: seq<Keyed<T>>)
  {
    forall i, j :: 0 <= i < j < |s| ==> !KeyBelow(s[j].key, s[i].key)
  }

  /** The entries of `s` with key `k`, in their order. */
  function WithKey<T>(s: seq<Keyed<T>>, k: seq<string>): seq<Keyed<T>>
    decreases |s|
  {
    if s == [] then []
    else
      var n := |s|;
      WithKey(s[..n - 1], k) + (if s[n - 1].key == k then [s[n - 1]] else [])
  }

  /** Placing `x` after every entry whose key is not above its own. */
  function Insert<T>(s: seq<Keyed<T>>, x: Keyed<T>): seq<Keyed<T>>
    decreases |s|
  {
    if s == [] then [x]
    else
      var n := |s|;
      if KeyBelow(x.key, s[n - 1].key) then Insert(s[..n - 1], x) + [s[n - 1]] else s + [x]
  }

  /** A stable sort by key. */
  function SortKeyed<T>(s: seq<Keyed<T>>): seq<Keyed<T>>
    decreases |s|
  {
    if s == [] then []
    else
      var n := |s|;
      Insert(SortKeyed(s[..n - 1]), s[n - 1])
  }

  lemma {:induction false} InsertPermutes<T>(s: seq<Keyed<T>>, x: Keyed<T>)
    ensures multiset(Insert(s, x)) == multiset(s) + multiset{x}
    decreases |s|
  {
    if s != [] {
      var n := |s|;
      InsertPermutes(s[..n - 1], x);
      assert s == s[..n - 1] + [s[n - 1]];
    }
  }

  lemma {:induction false} InsertOrdered<T>(s: seq<Keyed<T>>, x: Keyed<T>)
    requires Ordered(s)
    ensures Ordered(Insert(s, x))
    decreases |s|
  {
    if s == [] {
      return;
    }
    var n := |s|;
    var last := s[n - 1];
    if KeyBelow(x.key, last.key) {
      var front := Insert(s[..n - 1], x);
      InsertOrdered(s[..n - 1], x);
      InsertPermutes(s[..n - 1], x);
      forall i | 0 <= i < |front|
        ensures !KeyBelow(last.key, front[i].key)
      {
        assert front[i] in multiset(s[..n - 1]) + multiset{x};
        if front[i] == x {
          KeyBelowIrreflexive(last.key);
          if KeyBelow(last.key, x.key) {
            KeyBelowTransitive(last.key, x.key, last.key);
          }
        } else {
          var j :| 0 <= j < n - 1 && s[j] == front[i];
        }
      }
      OrderedSnoc(front, last);
    } else {
      forall i | 0 <= i < n - 1
        ensures !KeyBelow(x.key, s[i].key)
      {
        KeyBelowTotal(s[i].key, last.key);
        if KeyBelow(x.key, s[i].key) && KeyBelow(s[i].key, last.key) {
          KeyBelowTransitive(x.key, s[i].key, last.key);
        }
      }
      OrderedSnoc(s, x);
    }
  }

  lemma OrderedSnoc<T>(s: seq<Keyed<T>>, x: Keyed<T>)
    requires Ordered(s) && forall i :: 0 <= i < |s| ==> !KeyBelow(x.key, s[i].key)
    ensures Ordered(s + [x])
  {
  }

  lemma {:induction false} WithKeyAppend<T>(s: seq<Keyed<T>>, t: seq<Keyed<T>>, k: seq<string>)
    ensures WithKey(s + t, k) == WithKey(s, k) + WithKey(t, k)
    decreases |t|
  {
    if t == [] {
      assert s + t == s;
    } else {
      var n := |t|;
      WithKeyAppend(s, t[..n - 1], k);
      assert (s + t)[..|s + t| - 1] == s + t[..n - 1];
    }
  }

  /** Inserting keeps the order among the entries of each key, with `x` last among its own. */
  lemma {:induction false} InsertStable<T>(s: seq<Keyed<T>>, x: Keyed<T>, k: seq<string>)
    ensures WithKey(Insert(s, x), k) == WithKey(s + [x], k)
    decreases |s|
  {
    if s == [] {
      return;
    }
    var n := |s|;
    var init := s[..n - 1];
    var last := s[n - 1];
    if KeyBelow(x.key, last.key) {
      assert s == init + [last];
      calc {
        WithKey(Insert(s, x), k);
        WithKey(Insert(init, x) + [last], k);
        { WithKeyAppend(Insert(init, x), [last], k); }
        WithKey(Insert(init, x), k) + WithKey([last], k);
        { InsertStable(init, x, k); }
        WithKey(init + [x], k) + WithKey([last], k);
        { WithKeyAppend(init, [x], k); }
        WithKey(init, k) + WithKey([x], k) + WithKey([last], k);
        WithKey(init, k) + (WithKey([x], k) + WithKey([last], k));
        { SwapSingles(x, last, k); }
        WithKey(init, k) + (WithKey([last], k) + WithKey([x], k));
        WithKey(init, k) + WithKey([last], k) + WithKey([x], k);
        { WithKeyAppend(init, [last], k); }
        WithKey(s, k) + WithKey([x], k);
        { WithKeyAppend(s, [x], k); }
        WithKey(s + [x], k);
      }
    }
  }

  /** An entry placed before one with a higher key: at most one of the two has key `k`. */
  lemma SwapSingles<T>(x: Keyed<T>, last: Keyed<T>, k: seq<string>)
    requires KeyBelow(x.key, last.key)
    ensures WithKey([x], k) + WithKey([last], k) == WithKey([last], k) + WithKey([x], k)
  {
    if x.key == k && last.key == k {
      KeyBelowIrreflexive(x.key);
    }
  }

  /** The sort returns a permutation of its input. */
  lemma {:induction false} SortPermutes<T>(s: seq<Keyed<T>>)
    ensures multiset(SortKeyed(s)) == multiset(s)
    decreases |s|
  {
    if s != [] {
      var n := |s|;
      SortPermutes(s[..n - 1]);
      InsertPermutes(SortKeyed(s[..n - 1]), s[n - 1]);
      assert s == s[..n - 1] + [s[n - 1]];
    }
  }

  /** The sort orders by key. */
  lemma {:induction false} SortOrders<T>(s: seq<Keyed<T>>)
    ensures Ordered(SortKeyed(s))
    decreases |s|
  {
    if s != [] {
      var n := |s|;
      SortOrders(s[..n - 1]);
      InsertOrdered(SortKeyed(s[..n - 1]), s[n - 1]);
    }
  }

  /** The sort is stable: entries with equal keys keep their input order. */
  lemma {:induction false} SortIsStable<T>(s: seq<Keyed<T>>, k: seq<string>)
    ensures WithKey(SortKeyed(s), k) == WithKey(s, k)
    decreases |s|
  {
    if s != [] {
      var n := |s|;
      var front := SortKeyed(s[..n - 1]);
      calc {
        WithKey(SortKeyed(s), k);
        WithKey(Insert(front, s[n - 1]), k);
        { InsertStable(front, s[n - 1], k); }
        WithKey(front + [s[n - 1]], k);
        { WithKeyAppend(front, [s[n - 1]], k); }
        WithKey(front, k) + WithKey([s[n - 1]], k);
        { SortIsStable(s[..n - 1], k); }
        WithKey(s[..n - 1], k) + WithKey([s[n - 1]], k);
        { WithKeyAppend(s[..n - 1], [s[n - 1]], k); assert s == s[..n - 1] + [s[n - 1]]; }
        WithKey(s, k);
      }
    }
  }

  /** The items of a keyed sequence, keys dropped. */
  function Items<T>(s: seq<Keyed<T>>): (r: seq<T>)
    ensures |r| == |s|
    ensures forall i :: 0 <= i < |s| ==> r[i] == s[i].item
  {
    seq(|s|, i requires 0 <= i < |s| => s[i].item)
  }

  lemma ItemsAppend<T>(s: seq<Keyed<T>>, t: seq<Keyed<T>>)
    ensures Items(s + t) == Items(s) + Items(t)
  {
  }

  /** Reordering keyed entries reorders their items the same way. */
  lemma {:induction false} ItemsPermute<T>(a: seq<Keyed<T>>, b: seq<Keyed<T>>)
    requires multiset(a) == multiset(b)
    ensures multiset(Items(a)) == multiset(Items(b))
    decreases |a|
  {
    if a == [] {
      assert |b| == |multiset(b)| == 0;
    } else {
      var n := |a|;
      var x := a[n - 1];
      assert x in multiset(b);
      var j :| 0 <= j < |b| && b[j] == x;
      var init := a[..n - 1];
      var rest := b[..j] + b[j + 1..];
      assert multiset(init) == multiset(rest) by {
        RemoveAt(a, n - 1);
        assert a[..n - 1] + a[n..] == init;
        RemoveAt(b, j);
      }
      ItemsPermute(init, rest);
      var items := Items(b);
      calc {
        multiset(Items(a));
        { assert Items(a) == Items(init) + [x.item]; }
        multiset(Items(init)) + multiset{x.item};
        multiset(Items(rest)) + multiset{x.item};
        { ItemsRemoveAt(b, j); }
        multiset(items[..j] + items[j + 1..]) + multiset{x.item};
        { RemoveAt(items, j); }
        multiset(items) - multiset{x.item} + multiset{x.item};
        { assert items[j] == x.item && x.item in multiset(items); }
        multiset(items);
      }
    }
  }

  /** Removing the entry at `j` removes one copy of it from the multiset. */
  lemma RemoveAt<T>(b: seq<T>, j: int)
    requires 0 <= j < |b|
    ensures multiset(b[..j] + b[j + 1..]) == multiset(b) - multiset{b[j]}
  {
    assert b == b[..j] + [b[j]] + b[j + 1..];
  }

  /** The items of `b` with the entry at `j` removed are its items with the item at `j` removed. */
  lemma ItemsRemoveAt<T>(b: seq<Keyed<T>>, j: int)
    requires 0 <= j < |b|
    ensures Items(b[..j] + b[j + 1..]) == Items(b)[..j] + Items(b)[j + 1..]
  {
    var l := Items(b[..j] + b[j + 1..]);
    var r := Items(b)[..j] + Items(b)[j + 1..];
    assert |l| == |r|;
    forall i | 0 <= i < |l|
      ensures l[i] == r[i]
    {
      if i < j {
        assert l[i] == b[i].item;
      } else {
        assert l[i] == b[i + 1].item;
      }
    }
  }
}
