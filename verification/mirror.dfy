/** The local mirror of a server collection: an ordered sequence of records
    keyed by an integer id. These are the list edits every manager applies
    once the server has confirmed a change: prepend on create, append for a
    new comment, replace-by-id on update, filter-by-id on delete. */
module Mirror {

  /** Some element of `xs` carries id `k`. */
  predicate HasId<T>(xs: seq<T>, idOf: T -> int, k: int) {
    exists i :: 0 <= i < |xs| && idOf(xs[i]) == k
  }

  /** No two elements of `xs` share an id. */
  predicate UniqueIds<T>(xs: seq<T>, idOf: T -> int) {
    forall i, j :: 0 <= i < j < |xs| ==> idOf(xs[i]) != idOf(xs[j])
  }

  /** `[x, ...xs]`: a created record goes to the top of the list. */
  function Prepend<T>(xs: seq<T>, x: T): seq<T> {
    [x] + xs
  }

  /** `[...xs, x]`: a new comment goes to the end of the thread. */
  function Append<T>(xs: seq<T>, x: T): seq<T> {
    xs + [x]
  }

  /** `xs.filter(e => e.id !== k)`. */
  function RemoveById<T>(xs: seq<T>, idOf: T -> int, k: int): (r: seq<T>)
    ensures |r| <= |xs|
    ensures forall i :: 0 <= i < |r| ==> idOf(r[i]) != k
    ensures forall x :: x in r ==> x in xs
    ensures forall x :: x in xs && idOf(x) != k ==> x in r
    decreases |xs|
  {
    if xs == [] then []
    else if idOf(xs[0]) == k then RemoveById(xs[1..], idOf, k)
    else [xs[0]] + RemoveById(xs[1..], idOf, k)
  }

  /** `xs.map(e => e.id === k ? f(e) : e)`. */
  function UpdateById<T>(xs: seq<T>, idOf: T -> int, k: int, f: T -> T): (r: seq<T>)
    ensures |r| == |xs|
    ensures forall i :: 0 <= i < |xs| && idOf(xs[i]) == k ==> r[i] == f(xs[i])
    ensures forall i :: 0 <= i < |xs| && idOf(xs[i]) != k ==> r[i] == xs[i]
    decreases |xs|
  {
    if xs == [] then []
    else [if idOf(xs[0]) == k then f(xs[0]) else xs[0]] + UpdateById(xs[1..], idOf, k, f)
  }

  /** `xs.map(e => e.id === k ? x : e)`: every element with id `k` is
      replaced by `x` in place. */
  function ReplaceById<T>(xs: seq<T>, idOf: T -> int, k: int, x: T): (r: seq<T>)
    ensures |r| == |xs|
    ensures forall i :: 0 <= i < |xs| ==> r[i] == (if idOf(xs[i]) == k then x else xs[i])
  {
    UpdateById(xs, idOf, k, _ => x)
  }

  // ---------------------------------------------------------------------
  // Partners: inverses, preserved invariants and order preservation.

  /** Filtering distributes over concatenation, so it keeps relative order. */
  lemma {:induction false} RemoveConcat<T>(a: seq<T>, b: seq<T>, idOf: T -> int, k: int)
    ensures RemoveById(a + b, idOf, k) == RemoveById(a, idOf, k) + RemoveById(b, idOf, k)
    decreases |a|
  {
    if a == [] {
      assert a + b == b;
    } else {
      assert (a + b)[1..] == a[1..] + b;
      RemoveConcat(a[1..], b, idOf, k);
    }
  }

  /** Deleting an id nobody carries changes nothing. */
  lemma {:induction false} RemoveAbsent<T>(xs: seq<T>, idOf: T -> int, k: int)
    requires !HasId(xs, idOf, k)
    ensures RemoveById(xs, idOf, k) == xs
    decreases |xs|
  {
    if xs != [] {
      assert idOf(xs[0]) != k;
      assert !HasId(xs[1..], idOf, k) by {
        forall i | 0 <= i < |xs[1..]| ensures idOf(xs[1..][i]) != k {
          assert xs[1..][i] == xs[i + 1];
        }
      }
      RemoveAbsent(xs[1..], idOf, k);
      assert xs == [xs[0]] + xs[1..];
    }
  }

  /** In a list with unique ids, deleting the id at index `i` removes
      exactly that element and keeps the rest in their original order. */
  lemma RemoveUniqueAt<T>(xs: seq<T>, idOf: T -> int, i: int)
    requires UniqueIds(xs, idOf)
    requires 0 <= i < |xs|
    ensures RemoveById(xs, idOf, idOf(xs[i])) == xs[..i] + xs[i + 1..]
  {
    var k := idOf(xs[i]);
    var a, b := xs[..i], xs[i + 1..];
    SplitAt(xs, i);
    OthersLackId(xs, idOf, i);
    RemoveConcat(a, [xs[i]] + b, idOf, k);
    RemoveAbsent(a, idOf, k);
    RemoveDropsHead(xs[i], b, idOf);
    RemoveAbsent(b, idOf, k);
  }

  lemma SplitAt<T>(xs: seq<T>, i: int)
    requires 0 <= i < |xs|
    ensures xs == xs[..i] + ([xs[i]] + xs[i + 1..])
  {
  }

  lemma RemoveDropsHead<T>(x: T, b: seq<T>, idOf: T -> int)
    ensures RemoveById([x] + b, idOf, idOf(x)) == RemoveById(b, idOf, idOf(x))
  {
    assert ([x] + b)[1..] == b;
  }

  /** With unique ids, the id at index `i` occurs nowhere before or after it. */
  lemma OthersLackId<T>(xs: seq<T>, idOf: T -> int, i: int)
    requires UniqueIds(xs, idOf)
    requires 0 <= i < |xs|
    ensures !HasId(xs[..i], idOf, idOf(xs[i]))
    ensures !HasId(xs[i + 1..], idOf, idOf(xs[i]))
  {
    var a, b := xs[..i], xs[i + 1..];
    forall j | 0 <= j < |a| ensures idOf(a[j]) != idOf(xs[i]) {
      assert a[j] == xs[j];
    }
    forall j | 0 <= j < |b| ensures idOf(b[j]) != idOf(xs[i]) {
      assert b[j] == xs[i + 1 + j];
    }
  }

  /** Deleting a just-created record undoes the create. */
  lemma PrependThenRemove<T>(xs: seq<T>, idOf: T -> int, x: T)
    requires !HasId(xs, idOf, idOf(x))
    ensures RemoveById(Prepend(xs, x), idOf, idOf(x)) == xs
  {
    assert Prepend(xs, x)[1..] == xs;
    RemoveAbsent(xs, idOf, idOf(x));
  }

  /** Deleting a just-appended comment undoes the append. */
  lemma AppendThenRemove<T>(xs: seq<T>, idOf: T -> int, x: T)
    requires !HasId(xs, idOf, idOf(x))
    ensures RemoveById(Append(xs, x), idOf, idOf(x)) == xs
  {
    RemoveConcat(xs, [x], idOf, idOf(x));
    RemoveAbsent(xs, idOf, idOf(x));
    assert RemoveById([x], idOf, idOf(x)) == [];
  }

  /** A create with a fresh id keeps ids unique. */
  lemma PrependKeepsUnique<T>(xs: seq<T>, idOf: T -> int, x: T)
    requires UniqueIds(xs, idOf) && !HasId(xs, idOf, idOf(x))
    ensures UniqueIds(Prepend(xs, x), idOf)
  {
    var r := Prepend(xs, x);
    forall i, j | 0 <= i < j < |r| ensures idOf(r[i]) != idOf(r[j]) {
      assert r[j] == xs[j - 1];
      if i > 0 {
        assert r[i] == xs[i - 1];
      }
    }
  }

  /** An append with a fresh id keeps ids unique. */
  lemma AppendKeepsUnique<T>(xs: seq<T>, idOf: T -> int, x: T)
    requires UniqueIds(xs, idOf) && !HasId(xs, idOf, idOf(x))
    ensures UniqueIds(Append(xs, x), idOf)
  {
    var r := Append(xs, x);
    forall i, j | 0 <= i < j < |r| ensures idOf(r[i]) != idOf(r[j]) {
      assert r[i] == xs[i];
      if j < |xs| {
        assert r[j] == xs[j];
      }
    }
  }

  /** Filtering keeps ids unique. */
  lemma {:induction false} RemoveKeepsUnique<T>(xs: seq<T>, idOf: T -> int, k: int)
    requires UniqueIds(xs, idOf)
    ensures UniqueIds(RemoveById(xs, idOf, k), idOf)
    decreases |xs|
  {
    if xs != [] {
      var t := xs[1..];
      assert UniqueIds(t, idOf) by {
        forall i, j | 0 <= i < j < |t| ensures idOf(t[i]) != idOf(t[j]) {
          assert t[i] == xs[i + 1] && t[j] == xs[j + 1];
        }
      }
      RemoveKeepsUnique(t, idOf, k);
      if idOf(xs[0]) != k {
        var rt := RemoveById(t, idOf, k);
        var r := [xs[0]] + rt;
        forall i, j | 0 <= i < j < |r| ensures idOf(r[i]) != idOf(r[j]) {
          assert r[j] == rt[j - 1];
          assert rt[j - 1] in t;
          if i > 0 {
            assert r[i] == rt[i - 1];
          } else {
            var m :| 0 <= m < |t| && t[m] == rt[j - 1];
            assert t[m] == xs[m + 1];
          }
        }
      }
    }
  }

  /** Replacing by id with a record carrying that same id keeps every id in
      its position, hence keeps ids unique. */
  lemma ReplaceKeepsIds<T>(xs: seq<T>, idOf: T -> int, x: T)
    ensures var r := ReplaceById(xs, idOf, idOf(x), x);
      forall i :: 0 <= i < |xs| ==> idOf(r[i]) == idOf(xs[i])
    ensures UniqueIds(xs, idOf) ==> UniqueIds(ReplaceById(xs, idOf, idOf(x), x), idOf)
  {
  }

  /** Replacing twice with the same record is the same as replacing once. */
  lemma ReplaceIdempotent<T>(xs: seq<T>, idOf: T -> int, x: T)
    ensures var once := ReplaceById(xs, idOf, idOf(x), x);
      ReplaceById(once, idOf, idOf(x), x) == once
  {
  }

  /** Replacing an id nobody carries changes nothing. */
  lemma ReplaceAbsent<T>(xs: seq<T>, idOf: T -> int, k: int, x: T)
    requires !HasId(xs, idOf, k)
    ensures ReplaceById(xs, idOf, k, x) == xs
  {
  }

  /** In a list with unique ids, replacing the id at index `i` changes that
      position only. */
  lemma ReplaceUniqueAt<T>(xs: seq<T>, idOf: T -> int, i: int, x: T)
    requires UniqueIds(xs, idOf)
    requires 0 <= i < |xs|
    ensures ReplaceById(xs, idOf, idOf(xs[i]), x) == xs[i := x]
  {
  }
}
