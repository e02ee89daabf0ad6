/**
 * `DistanceConstraints` (autode/constraints.py:158-215): a mapping from a pair of
 * atom indices to a distance in Ångström whose keys are stored sorted, so that
 * (i, j) and (j, i) address one entry.
 */
module DistanceStore {
  import opened Wrappers
  import opened PyValues
  import opened AtomKeys

  /** `autode.values.Distance`: a length, in Ångström. */
  datatype Distance = Angstrom(value: real)

  type Store = map<seq<int>, Distance>

  /** `_key_transform`: the sorted tuple of the key's indices. */
  function KeyTransform(atoms: seq<int>): (r: seq<int>)
    ensures IsSorted(r) && multiset(r) == multiset(atoms)
  {
    Sort(atoms)
  }

  /** A key that `__setitem__` can have stored: sorted, exactly two distinct
      indices, none negative. */
  ghost predicate ValidKey(k: seq<int>) {
    IsSorted(k) && |UniqueAtoms(k)| == 2 && NonNegative(k)
  }

  ghost predicate ValidStore(s: Store) {
    forall k | k in s :: ValidKey(k) && s[k].value > 0.0
  }

  /** `__setitem__`: Ok(new store) when the key is stored or silently dropped
      (wrong number of distinct indices, only logged), Err when it raises. The
      arity test comes before the value test. */
  function SetItem(s: Store, key: Key, value: real): Result<Store, PyError> {
    match key
    case Scalar => Err(KeyNotIterable)
    case Tuple(atoms) =>
      if |UniqueAtoms(atoms)| != 2 then Ok(s)
      else if value <= 0.0 then Err(NonPositiveDistance)
      else if !NonNegative(atoms) then Err(NegativeIndex)
      else Ok(s[KeyTransform(atoms) := Angstrom(value)])
  }

  /** `__getitem__`. */
  function GetItem(s: Store, key: Key): Result<Distance, PyError> {
    match key
    case Scalar => Err(KeyNotSortable)
    case Tuple(atoms) =>
      var k := KeyTransform(atoms);
      if k in s then Ok(s[k]) else Err(MissingKey)
  }

  /** `__delitem__`. */
  function DelItem(s: Store, key: Key): Result<Store, PyError> {
    match key
    case Scalar => Err(KeyNotSortable)
    case Tuple(atoms) =>
      var k := KeyTransform(atoms);
      if k in s then Ok(s - {k}) else Err(MissingKey)
  }

  /** `MutableMapping.update` with the items of a dict, in order: the store after
      the items up to the first one that raises, and that exception. */
  function UpdateAll(s: Store, items: seq<(Key, real)>): (Store, Option<PyError>) {
    if items == [] then (s, None)
    else
      var (p, e) := UpdateAll(s, items[..|items| - 1]);
      if e.Some? then (p, e)
      else
        match SetItem(p, items[|items| - 1].0, items[|items| - 1].1)
        case Ok(q) => (q, None)
        case Err(x) => (p, Some(x))
  }

  /** `DistanceConstraints(d)`: a new store filled from d, or the exception. */
  function Build(items: seq<(Key, real)>): Result<Store, PyError> {
    var (s, e) := UpdateAll(map[], items);
    if e.Some? then Err(e.value) else Ok(s)
  }

  // ---------------------------------------------------------------------------
  // Properties of the specification

  /** Every exception `__setitem__` raises is a ValueError, and it raises only for
      a key with two distinct indices: a non-iterable key, a value <= 0 or a
      negative index. Any other key without two distinct indices leaves the store
      as it was. */
  lemma SetItemRaises(s: Store, key: Key, value: real)
    ensures key.Tuple? && |UniqueAtoms(key.atoms)| != 2 ==> SetItem(s, key, value) == Ok(s)
    ensures SetItem(s, key, value).Err? ==> IsValueError(SetItem(s, key, value).error)
    ensures SetItem(s, key, value).Err? <==>
              key.Scalar? || (|UniqueAtoms(key.atoms)| == 2 && (value <= 0.0 || !NonNegative(key.atoms)))
  {
  }

  /** A key without exactly two distinct indices is dropped whatever the value,
      even one <= 0: the arity test runs first. (2, 2) is such a key. */
  lemma DuplicatePairDropped(s: Store, value: real)
    ensures SetItem(s, Tuple([2, 2]), value) == Ok(s)
    ensures SetItem(s, Tuple([0, 1, 2]), value) == Ok(s)
  {
    assert UniqueAtoms([2, 2]) == {2};
    assert UniqueAtoms([0, 1, 2]) == {0, 1, 2};
  }

  /** The arity test counts distinct indices, not positions: a triple (y, x, x)
      has two and is stored, under the sorted triple (x, x, y). */
  lemma RepeatedIndexKeyStored(s: Store, x: nat, y: nat, value: real)
    requires x < y && value > 0.0
    ensures SetItem(s, Tuple([y, x, x]), value) == Ok(s[[x, x, y] := Angstrom(value)])
  {
    assert |UniqueAtoms([y, x, x])| == 2 by {
      assert UniqueAtoms([y, x, x]) == {x, y};
      assert |{x, y}| == 2;
    }
    assert NonNegative([y, x, x]);
    SortTripleWithRepeat(x, y);
  }

  /** Only entries with a sorted key of two distinct non-negative indices and a
      positive distance are ever stored. */
  lemma SetItemKeepsValid(s: Store, key: Key, value: real)
    requires ValidStore(s)
    ensures SetItem(s, key, value).Ok? ==> ValidStore(SetItem(s, key, value).value)
  {
    if key.Tuple? && |UniqueAtoms(key.atoms)| == 2 && value > 0.0 && NonNegative(key.atoms) {
      PermutationKeepsAtoms(key.atoms, KeyTransform(key.atoms));
    }
  }

  /** The order of a key's indices does not matter: any reordering stores,
      drops or raises exactly alike. */
  lemma SetItemOrderInsensitive(s: Store, a: seq<int>, b: seq<int>, value: real)
    requires multiset(a) == multiset(b)
    ensures SetItem(s, Tuple(a), value) == SetItem(s, Tuple(b), value)
  {
    PermutationKeepsAtoms(a, b);
    SortPermutation(a, b);
  }

  /** Reading and deleting are order-insensitive too: any reordering of a key's
      indices addresses the same entry. */
  lemma LookupOrderInsensitive(s: Store, a: seq<int>, b: seq<int>)
    requires multiset(a) == multiset(b)
    ensures GetItem(s, Tuple(a)) == GetItem(s, Tuple(b))
    ensures DelItem(s, Tuple(a)) == DelItem(s, Tuple(b))
  {
    SortPermutation(a, b);
  }

  /** Setting (i, j) and then (j, i) leaves one entry, holding the second value;
      it can be read back under either order. */
  lemma SwappedPairIsOneEntry(s: Store, i: nat, j: nat, v: real, w: real)
    requires i != j && v > 0.0 && w > 0.0
    ensures SetItem(s, Tuple([i, j]), v).Ok?
    ensures var s1 := SetItem(s, Tuple([i, j]), v).value;
            && SetItem(s1, Tuple([j, i]), w).Ok?
            && var s2 := SetItem(s1, Tuple([j, i]), w).value;
            && s2.Keys == s1.Keys == s.Keys + {KeyTransform([i, j])}
            && GetItem(s2, Tuple([i, j])) == GetItem(s2, Tuple([j, i])) == Ok(Angstrom(w))
  {
    var a, b := [i, j], [j, i];
    var k := KeyTransform(a);
    PairStored(s, a, v);
    var s1 := s[k := Angstrom(v)];
    PairStored(s1, a, w);
    assert multiset(a) == multiset(b);
    SetItemOrderInsensitive(s1, a, b, w);
    SortPermutation(a, b);
  }

  /** A pair of two distinct non-negative indices with a positive distance is
      stored under its sorted key. */
  lemma PairStored(s: Store, a: seq<int>, v: real)
    requires |a| == 2 && a[0] != a[1] && a[0] >= 0 && a[1] >= 0 && v > 0.0
    ensures SetItem(s, Tuple(a), v) == Ok(s[KeyTransform(a) := Angstrom(v)])
  {
    assert a == [a[0], a[1]];
    assert UniqueAtoms(a) == {a[0], a[1]};
    assert NonNegative(a);
  }

  /** Re-setting a stored entry under its own key stores exactly that entry. */
  lemma SetCanonical(s: Store, k: seq<int>, d: Distance)
    requires ValidKey(k) && d.value > 0.0
    ensures SetItem(s, Tuple(k), d.value) == Ok(s[k := d])
  {
    SortOfSorted(k);
  }

  /** An update never removes an entry and never stores an invalid one. */
  lemma {:induction false} UpdateAllGrows(s: Store, items: seq<(Key, real)>)
    requires ValidStore(s)
    ensures s.Keys <= UpdateAll(s, items).0.Keys
    ensures ValidStore(UpdateAll(s, items).0)
  {
    if items != [] {
      var last := items[|items| - 1];
      UpdateAllGrows(s, items[..|items| - 1]);
      SetItemKeepsValid(UpdateAll(s, items[..|items| - 1]).0, last.0, last.1);
    }
  }

  /** A store built from a dict holds only valid entries. */
  lemma BuildValid(items: seq<(Key, real)>)
    ensures Build(items).Ok? ==> ValidStore(Build(items).value)
  {
    UpdateAllGrows(map[], items);
  }

  // ---------------------------------------------------------------------------
  // The mutable mapping

  class DistanceConstraints {
    var store: Store

    ghost predicate Valid()
      reads this
    {
      ValidStore(store)
    }

    constructor ()
      ensures Valid() && store == map[]
    {
      store := map[];
    }

    /** `DistanceConstraints(items)`: raises on the first invalid item. */
    static method FromItems(items: seq<(Key, real)>) returns (r: Result<DistanceConstraints, PyError>)
      ensures Build(items).Err? ==> r == Err(Build(items).error)
      ensures Build(items).Ok? ==> r.Ok? && fresh(r.value) && r.value.Valid() && r.value.store == Build(items).value
    {
      var d := new DistanceConstraints();
      var err := d.Update(items);
      if err.Some? {
        r := Err(err.value);
      } else {
        r := Ok(d);
      }
    }

    /** `d[key] = value`: on an exception nothing is stored. */
    method Set(key: Key, value: real) returns (err: Option<PyError>)
      requires Valid()
      modifies this
      ensures Valid()
      ensures SetItem(old(store), key, value).Ok? ==> err == None && store == SetItem(old(store), key, value).value
      ensures SetItem(old(store), key, value).Err? ==> err == Some(SetItem(old(store), key, value).error) && store == old(store)
    {
      SetItemKeepsValid(store, key, value);
      match key {
        case Scalar =>
          err := Some(KeyNotIterable);
        case Tuple(atoms) =>
          if |UniqueAtoms(atoms)| != 2 {
            err := None;
          } else if value <= 0.0 {
            err := Some(NonPositiveDistance);
          } else if !NonNegative(atoms) {
            err := Some(NegativeIndex);
          } else {
            store := store[KeyTransform(atoms) := Angstrom(value)];
            err := None;
          }
      }
    }

    /** `d[key]`. */
    function Get(key: Key): Result<Distance, PyError>
      reads this
    {
      GetItem(store, key)
    }

    /** `del d[key]`. */
    method Delete(key: Key) returns (err: Option<PyError>)
      requires Valid()
      modifies this
      ensures Valid()
      ensures DelItem(old(store), key).Ok? ==> err == None && store == DelItem(old(store), key).value
      ensures DelItem(old(store), key).Err? ==> err == Some(DelItem(old(store), key).error) && store == old(store)
    {
      match DelItem(store, key) {
        case Ok(s) => store := s; err := None;
        case Err(e) => err := Some(e);
      }
    }

    /** `len(d)`. */
    function Len(): nat
      reads this
    {
      |store|
    }

    /** `d.clear()`. */
    method Clear()
      modifies this
      ensures Valid() && store == map[]
    {
      store := map[];
    }

    /** `d.update(items)`: the items are set one by one; those before an item that
        raises stay stored. */
    method Update(items: seq<(Key, real)>) returns (err: Option<PyError>)
      requires Valid()
      modifies this
      ensures Valid()
      ensures (store, err) == UpdateAll(old(store), items)
    {
      var i := 0;
      while i < |items|
        invariant 0 <= i <= |items|
        invariant Valid()
        invariant UpdateAll(old(store), items[..i]) == (store, None)
      {
        assert items[..i + 1][..i] == items[..i];
        var e := Set(items[i].0, items[i].1);
        if e.Some? {
          assert items[..i + 1] == items[..i] + [items[i]];
          UpdateAllStops(old(store), items, i + 1);
          return e;
        }
        i := i + 1;
      }
      assert items[..i] == items;
      return None;
    }

    /** `d.update(other)` for another DistanceConstraints: every entry of other
        is set here, overriding on collision and keeping the rest. */
    method MergeFrom(other: DistanceConstraints)
      requires Valid() && other.Valid()
      modifies this
      ensures Valid()
      ensures store == old(store) + old(other.store)
    {
      var src := other.store;
      var todo := src.Keys;
      ghost var done: set<seq<int>> := {};
      while todo != {}
        invariant todo <= src.Keys && done == src.Keys - todo
        invariant Valid()
        invariant store == old(store) + Restrict(src, done)
        decreases todo
      {
        var k :| k in todo;
        SetCanonical(store, k, src[k]);
        RestrictGrows(old(store), src, done, k);
        var e := Set(Tuple(k), src[k].value);
        todo := todo - {k};
        done := done + {k};
      }
      RestrictFull(src, done);
    }

    /** `d.copy()`: a deep copy sharing nothing with d. */
    method Copy() returns (c: DistanceConstraints)
      requires Valid()
      ensures fresh(c) && c.Valid() && c.store == store
    {
      c := new DistanceConstraints();
      c.store := store;
    }
  }

  /** Once an item raises, later items are not looked at. */
  lemma {:induction false} UpdateAllStops(s: Store, items: seq<(Key, real)>, n: nat)
    requires 0 < n <= |items|
    requires UpdateAll(s, items[..n]).1.Some?
    ensures UpdateAll(s, items) == UpdateAll(s, items[..n])
  {
    if n < |items| {
      assert items[..|items|][..|items| - 1] == items[..|items| - 1];
      assert items[..|items| - 1][..n] == items[..n];
      UpdateAllStops(s, items[..|items| - 1], n);
    } else {
      assert items[..n] == items;
    }
  }

  /** A copy is independent: setting an entry in the copy leaves the original
      as it was. */
  method CopyIsIndependent(d: DistanceConstraints, key: Key, value: real)
    requires d.Valid()
    ensures d.store == old(d.store)
  {
    var c := d.Copy();
    var e := c.Set(key, value);
  }
}
