/** Ordinal string order and a stable sort by a string key, standing in for
    `[...xs].sort((a, b) => a[key].localeCompare(b[key]))`. */
module Ordering {

  /** `a` sorts no later than `b`, comparing character codes left to right. */
  predicate Le(a: string, b: string)
    decreases |a|
  {
    |a| == 0 || (|b| > 0 && (a[0] < b[0] || (a[0] == b[0] && Le(a[1..], b[1..]))))
  }

  lemma {:induction false} LeReflexive(a: string)
    ensures Le(a, a)
    decreases |a|
  {
    if |a| > 0 {
      LeReflexive(a[1..]);
    }
  }

  lemma {:induction false} LeTotal(a: string, b: string)
    ensures Le(a, b) || Le(b, a)
    decreases |a|
  {
    if |a| > 0 && |b| > 0 && a[0] == b[0] {
      LeTotal(a[1..], b[1..]);
    }
  }

  lemma {:induction false} LeTransitive(a: string, b: string, c: string)
    requires Le(a, b) && Le(b, c)
    ensures Le(a, c)
    decreases |a|
  {
    if |a| > 0 && a[0] == b[0] && b[0] == c[0] {
      LeTransitive(a[1..], b[1..], c[1..]);
    }
  }

  /** Ordered by `key`, each element no later than every element after it. */
  predicate SortedBy<T>(xs: seq<T>, key: T -> string) {
    forall i, j :: 0 <= i < j < |xs| ==> Le(key(xs[i]), key(xs[j]))
  }

  /** Inserts `x` before the first element it sorts no later than, so `x`
      goes ahead of elements with an equal key. */
  function Insert<T>(x: T, s: seq<T>, key: T -> string): (r: seq<T>)
    ensures multiset(r) == multiset(s) + multiset{x}
    ensures SortedBy(s, key) ==> SortedBy(r, key)
    decreases |s|
  {
    if s == [] then [x]
    else if Le(key(x), key(s[0])) then
      assert SortedBy(s, key) ==> SortedBy([x] + s, key) by {
        if SortedBy(s, key) {
          InsertAtFront(x, s, key);
        }
      }
      [x] + s
    else
      var rest := Insert(x, s[1..], key);
      assert s == [s[0]] + s[1..];
      assert SortedBy(s, key) ==> SortedBy([s[0]] + rest, key) by {
        if SortedBy(s, key) {
          InsertBehindHead(x, s, rest, key);
        }
      }
      [s[0]] + rest
  }

  /** A key no later than the first of an ordered list can go in front. */
  lemma InsertAtFront<T>(x: T, s: seq<T>, key: T -> string)
    requires s != [] && SortedBy(s, key) && Le(key(x), key(s[0]))
    ensures SortedBy([x] + s, key)
  {
    forall j | 2 <= j < |s| + 1 ensures Le(key(x), key(([x] + s)[j])) {
      LeTransitive(key(x), key(s[0]), key(s[j - 1]));
    }
  }

  /** A key later than the first of an ordered list goes behind it. */
  lemma InsertBehindHead<T>(x: T, s: seq<T>, rest: seq<T>, key: T -> string)
    requires s != [] && SortedBy(s, key) && !Le(key(x), key(s[0]))
    requires SortedBy(rest, key) && multiset(rest) == multiset(s[1..]) + multiset{x}
    ensures SortedBy([s[0]] + rest, key)
  {
    assert SortedBy(s[1..], key);
    LeTotal(key(x), key(s[0]));
    forall j | 0 <= j < |rest| ensures Le(key(s[0]), key(rest[j])) {
      assert rest[j] in multiset(rest);
      if rest[j] != x {
        assert rest[j] in multiset(s[1..]);
        var m :| 0 <= m < |s[1..]| && s[1..][m] == rest[j];
        assert s[1..][m] == s[m + 1];
      }
    }
    HeadBeforeAll(s[0], rest, key);
  }

  /** A head no later than every element of an ordered tail keeps it ordered. */
  lemma HeadBeforeAll<T>(h: T, rest: seq<T>, key: T -> string)
    requires SortedBy(rest, key)
    requires forall j :: 0 <= j < |rest| ==> Le(key(h), key(rest[j]))
    ensures SortedBy([h] + rest, key)
  {
    forall i, j | 0 <= i < j < |rest| + 1
      ensures Le(key(([h] + rest)[i]), key(([h] + rest)[j]))
    {
      if i > 0 {
        assert ([h] + rest)[i] == rest[i - 1];
      }
      assert ([h] + rest)[j] == rest[j - 1];
    }
  }

  /** Insertion sort: a stable, ordered permutation of `xs`. */
  function Sort<T>(xs: seq<T>, key: T -> string): (r: seq<T>)
    ensures multiset(r) == multiset(xs)
    ensures |r| == |xs|
    ensures SortedBy(r, key)
    decreases |xs|
  {
    if xs == [] then []
    else
      assert xs == [xs[0]] + xs[1..];
      Insert(xs[0], Sort(xs[1..], key), key)
  }

  /** Sorting an already ordered list by the same key changes nothing. */
  lemma {:induction false} SortIdempotent<T>(xs: seq<T>, key: T -> string)
    requires SortedBy(xs, key)
    ensures Sort(xs, key) == xs
    decreases |xs|
  {
    if xs != [] {
      var t := xs[1..];
      assert SortedBy(t, key);
      SortIdempotent(t, key);
      assert xs == [xs[0]] + t;
      if t != [] {
        assert Le(key(xs[0]), key(t[0]));
      }
    }
  }

  /** Sorting twice is sorting once. */
  lemma SortTwice<T>(xs: seq<T>, key: T -> string)
    ensures Sort(Sort(xs, key), key) == Sort(xs, key)
  {
    SortIdempotent(Sort(xs, key), key);
  }

  /** The elements whose key is `k`, in their order in `xs`. */
  function KeyFilter<T>(xs: seq<T>, key: T -> string, k: string): seq<T>
    decreases |xs|
  {
    if xs == [] then []
    else if key(xs[0]) == k then [xs[0]] + KeyFilter(xs[1..], key, k)
    else KeyFilter(xs[1..], key, k)
  }

  /** Inserting puts `x` ahead of every element with the same key and
      leaves their order alone. */
  lemma {:induction false} InsertFilter<T>(x: T, t: seq<T>, key: T -> string, k: string)
    ensures KeyFilter(Insert(x, t, key), key, k) == (if key(x) == k then [x] else []) + KeyFilter(t, key, k)
    decreases |t|
  {
    if t == [] {
      KeyFilterCons(x, [], key, k);
      assert [x] + [] == [x];
    } else if Le(key(x), key(t[0])) {
      KeyFilterCons(x, t, key, k);
    } else {
      InsertFilter(x, t[1..], key, k);
      InsertFilterBehind(x, t, key, k);
    }
  }

  /** The step of `InsertFilter` where `x` goes behind the head: the head
      and `x` cannot both carry the key `k`, so their order does not matter. */
  lemma InsertFilterBehind<T>(x: T, t: seq<T>, key: T -> string, k: string)
    requires t != [] && !Le(key(x), key(t[0]))
    requires KeyFilter(Insert(x, t[1..], key), key, k) == (if key(x) == k then [x] else []) + KeyFilter(t[1..], key, k)
    ensures KeyFilter(Insert(x, t, key), key, k) == (if key(x) == k then [x] else []) + KeyFilter(t, key, k)
  {
    var rest := Insert(x, t[1..], key);
    assert Insert(x, t, key) == [t[0]] + rest;
    KeyFilterCons(t[0], rest, key, k);
    KeyFilterCons(t[0], t[1..], key, k);
    assert [t[0]] + t[1..] == t;
    LeReflexive(key(x));
    SwapSingles(if key(x) == k then [x] else [], if key(t[0]) == k then [t[0]] else [], KeyFilter(t[1..], key, k));
  }

  lemma KeyFilterCons<T>(h: T, rest: seq<T>, key: T -> string, k: string)
    ensures KeyFilter([h] + rest, key, k) == (if key(h) == k then [h] else []) + KeyFilter(rest, key, k)
  {
    assert ([h] + rest)[1..] == rest;
  }

  lemma SwapSingles<T>(a: seq<T>, b: seq<T>, tail: seq<T>)
    requires a == [] || b == []
    ensures b + (a + tail) == a + (b + tail)
  {
    if a == [] {
      assert a + tail == tail;
      assert a + (b + tail) == b + tail;
    } else {
      assert b + (a + tail) == a + tail;
      assert b + tail == tail;
    }
  }

  /** The sort is stable: for every key, the elements carrying it come out
      in the order they went in. */
  lemma {:induction false} SortStable<T>(xs: seq<T>, key: T -> string, k: string)
    ensures KeyFilter(Sort(xs, key), key, k) == KeyFilter(xs, key, k)
    decreases |xs|
  {
    if xs != [] {
      SortStable(xs[1..], key, k);
      InsertFilter(xs[0], Sort(xs[1..], key), key, k);
    }
  }
}
