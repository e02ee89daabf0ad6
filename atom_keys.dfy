/**
 * Keys of the distance and angular constraint stores: tuples of atom indices,
 * the facts `len(set(key))` and "every index is >= 0" that the stores check,
 * and `sorted`, which the distance store uses to canonicalise its keys.
 */
module AtomKeys {

  /** A key as handed to `__setitem__`: a tuple of atom indices, or a value that
      Python cannot iterate over (a bare int, say). */
  datatype Key = Tuple(atoms: seq<int>) | Scalar

  /** `set(key)`: the distinct atom indices of a key. */
  function UniqueAtoms(atoms: seq<int>): set<int> {
    set a | a in atoms
  }

  predicate NonNegative(atoms: seq<int>) {
    forall i | 0 <= i < |atoms| :: atoms[i] >= 0
  }

  predicate IsSorted(s: seq<int>) {
    forall i, j | 0 <= i < j < |s| :: s[i] <= s[j]
  }

  function Insert(x: int, s: seq<int>): (r: seq<int>)
    requires IsSorted(s)
    ensures IsSorted(r) && multiset(r) == multiset(s) + multiset{x}
  {
    if s == [] || x <= s[0] then
      InsertFront(x, s);
      [x] + s
    else
      var rest := Insert(x, s[1..]);
      InsertBehind(x, s, rest);
      [s[0]] + rest
  }

  /** An index no larger than the head of a sorted key goes in front of it. */
  lemma InsertFront(x: int, s: seq<int>)
    requires IsSorted(s) && (s == [] || x <= s[0])
    ensures IsSorted([x] + s)
  {
    var r := [x] + s;
    forall i, j | 0 <= i < j < |r| ensures r[i] <= r[j] {
      if i == 0 && j > 1 {
        assert s[0] <= s[j - 1];
      }
    }
  }

  /** An index larger than the head of a sorted key goes behind the head. */
  lemma InsertBehind(x: int, s: seq<int>, rest: seq<int>)
    requires IsSorted(s) && s != [] && s[0] < x
    requires IsSorted(rest) && multiset(rest) == multiset(s[1..]) + multiset{x}
    ensures IsSorted([s[0]] + rest)
    ensures multiset([s[0]] + rest) == multiset(s) + multiset{x}
  {
    assert s == [s[0]] + s[1..];
    HeadBelowRest(x, s, rest);
    var r := [s[0]] + rest;
    forall i, j | 0 <= i < j < |r| ensures r[i] <= r[j] {
      if i > 0 {
        assert r[i] == rest[i - 1] && r[j] == rest[j - 1];
      }
    }
  }

  /** Every index of the sorted tail with x inserted is at least the head. */
  lemma HeadBelowRest(x: int, s: seq<int>, rest: seq<int>)
    requires IsSorted(s) && s != [] && s[0] < x
    requires multiset(rest) == multiset(s[1..]) + multiset{x}
    ensures forall i | 0 <= i < |rest| :: s[0] <= rest[i]
  {
    forall i | 0 <= i < |rest| ensures s[0] <= rest[i] {
      assert rest[i] in multiset(rest);
      if rest[i] != x {
        assert rest[i] in multiset(s[1..]);
        var k :| 0 <= k < |s[1..]| && s[1..][k] == rest[i];
        assert s[0] <= s[k + 1];
      }
    }
  }

  /** `sorted(s)`: the ascending permutation of s. */
  function Sort(s: seq<int>): (r: seq<int>)
    ensures IsSorted(r) && multiset(r) == multiset(s)
  {
    if s == [] then []
    else
      assert s == [s[0]] + s[1..];
      Insert(s[0], Sort(s[1..]))
  }

  /** Removing the first element removes one copy of it from the multiset. */
  lemma TailMultiset(a: seq<int>)
    requires a != []
    ensures multiset(a[1..]) == multiset(a) - multiset{a[0]}
  {
    assert a == [a[0]] + a[1..];
  }

  /** Two ascending sequences with the same elements start with the same one. */
  lemma SortedHeads(a: seq<int>, b: seq<int>)
    requires IsSorted(a) && IsSorted(b) && multiset(a) == multiset(b) && a != []
    ensures b != [] && a[0] == b[0]
  {
    assert a[0] in multiset(b);
    assert b != [];
    assert b[0] in multiset(a);
    var j :| 0 <= j < |b| && b[j] == a[0];
    var i :| 0 <= i < |a| && a[i] == b[0];
    assert b[0] <= b[j] && a[0] <= a[i];
  }

  /** A multiset has exactly one ascending arrangement. */
  lemma {:induction false} SortedUnique(a: seq<int>, b: seq<int>)
    requires IsSorted(a) && IsSorted(b) && multiset(a) == multiset(b)
    ensures a == b
  {
    if a == [] {
      assert |multiset(b)| == 0;
    } else {
      SortedHeads(a, b);
      TailMultiset(a);
      TailMultiset(b);
      SortedUnique(a[1..], b[1..]);
      assert a == [a[0]] + a[1..] && b == [b[0]] + b[1..];
    }
  }

  /** Any two orderings of the same indices sort to the same key. */
  lemma SortPermutation(a: seq<int>, b: seq<int>)
    requires multiset(a) == multiset(b)
    ensures Sort(a) == Sort(b)
  {
    SortedUnique(Sort(a), Sort(b));
  }

  /** Sorting a key that is already sorted leaves it unchanged. */
  lemma SortOfSorted(s: seq<int>)
    requires IsSorted(s)
    ensures Sort(s) == s
  {
    SortedUnique(Sort(s), s);
  }

  /** `sorted((y, x, x))` for x < y. */
  lemma SortTripleWithRepeat(x: int, y: int)
    requires x < y
    ensures Sort([y, x, x]) == [x, x, y]
  {
    assert [y, x, x][1..] == [x, x];
    assert Sort([x, x]) == [x, x] by {
      assert [x, x][1..] == [x] && [x][1..] == [];
      assert Sort([x]) == [x];
    }
    assert Insert(y, [x, x]) == [x, x, y] by {
      assert [x, x][1..] == [x] && [x][1..] == [];
      assert Insert(y, [x]) == [x, y];
    }
  }

  /** Reordering a key changes neither its distinct indices nor their signs. */
  lemma PermutationKeepsAtoms(a: seq<int>, b: seq<int>)
    requires multiset(a) == multiset(b)
    ensures UniqueAtoms(a) == UniqueAtoms(b)
    ensures NonNegative(a) <==> NonNegative(b)
  {
    forall x ensures x in a <==> x in b {
      assert x in a <==> x in multiset(a);
      assert x in b <==> x in multiset(b);
    }
    if NonNegative(a) {
      forall i | 0 <= i < |b| ensures b[i] >= 0 {
        assert b[i] in multiset(a);
      }
    }
    if NonNegative(b) {
      forall i | 0 <= i < |a| ensures a[i] >= 0 {
        assert a[i] in multiset(b);
      }
    }
  }

  // ---------------------------------------------------------------------------
  // Merging one store keyed by atom tuples into another, one key at a time

  /** The entries of src whose keys are in ks. */
  ghost function Restrict<V>(src: map<seq<int>, V>, ks: set<seq<int>>): map<seq<int>, V> {
    map k | k in ks && k in src :: src[k]
  }

  /** Restricted to a superset of its keys, a store is itself. */
  lemma RestrictFull<V>(src: map<seq<int>, V>, done: set<seq<int>>)
    requires src.Keys <= done
    ensures Restrict(src, done) == src
  {
  }

  /** Setting one more entry of src over a merge of its entries in done gives the
      merge of its entries in done and that key. */
  lemma RestrictGrows<V>(base: map<seq<int>, V>, src: map<seq<int>, V>, done: set<seq<int>>, k: seq<int>)
    requires k in src
    ensures (base + Restrict(src, done))[k := src[k]] == base + Restrict(src, done + {k})
  {
  }
}
