/**
 * `AngleConstraints` (autode/constraints.py:217-270): a mapping from a tuple of
 * three (angle) or four (dihedral) atom indices to an angle in degrees. Keys are
 * kept in the order given, since the direction of a dihedral matters.
 */
module AngleStore {
  import opened Wrappers
  import opened PyValues
  import opened AtomKeys

  /** `autode.values.Angle` in units of degrees. */
  datatype Angle = Degrees(value: real)

  type Store = map<seq<int>, Angle>

  /** A key that `__setitem__` can have stored: three or four distinct
      indices, none negative. */
  ghost predicate ValidKey(k: seq<int>) {
    |UniqueAtoms(k)| in {3, 4} && NonNegative(k)
  }

  ghost predicate ValidStore(s: Store) {
    forall k | k in s :: ValidKey(k)
  }

  /** `__setitem__`: a key of the wrong arity is only logged; the value is not
      range-checked; `_key_transform` is the identity. */
  function SetItem(s: Store, key: Key, value: real): Result<Store, PyError> {
    match key
    case Scalar => Err(KeyNotIterable)
    case Tuple(atoms) =>
      var n := |UniqueAtoms(atoms)|;
      if n != 3 && n != 4 then Ok(s)
      else if !NonNegative(atoms) then Err(NegativeIndex)
      else Ok(s[atoms := Degrees(value)])
  }

  /** `__getitem__`: a key that is not a tuple is looked up as it is and is absent. */
  function GetItem(s: Store, key: Key): Result<Angle, PyError> {
    match key
    case Scalar => Err(MissingKey)
    case Tuple(atoms) => if atoms in s then Ok(s[atoms]) else Err(MissingKey)
  }

  /** `__delitem__`. */
  function DelItem(s: Store, key: Key): Result<Store, PyError> {
    match key
    case Scalar => Err(MissingKey)
    case Tuple(atoms) => if atoms in s then Ok(s - {atoms}) else Err(MissingKey)
  }

  /** `MutableMapping.update` with the items of a dict, in order. */
  function UpdateAll(s: Store, items: seq<(Key, real)>): (Store, Option<PyError>) {
    if items == [] then (s, None)
    else
      var (p, e) := UpdateAll(s, items[..|items| - 1]);
      if e.Some? then (p, e)
      else
        match SetItem(p, items[|items| - 1].0, items[|items| - 1].1)
        case Ok(q) => (q, None)
        case Err(x) => (p, Some(x))
  }

  /** `AngleConstraints(d)`. */
  function Build(items: seq<(Key, real)>): Result<Store, PyError> {
    var (s, e) := UpdateAll(map[], items);
    if e.Some? then Err(e.value) else Ok(s)
  }

  // ---------------------------------------------------------------------------
  // Properties of the specification

  /** `__setitem__` raises a ValueError exactly for a non-iterable key and for a
      key of three or four distinct indices one of which is negative; it stores
      exactly the keys of three or four distinct non-negative indices, with any
      value whatever. */
  lemma SetItemOutcome(s: Store, key: Key, value: real)
    ensures SetItem(s, key, value).Err? ==> IsValueError(SetItem(s, key, value).error)
    ensures SetItem(s, key, value).Err? <==>
              key.Scalar? || (|UniqueAtoms(key.atoms)| in {3, 4} && !NonNegative(key.atoms))
    ensures key.Tuple? && ValidKey(key.atoms) ==> SetItem(s, key, value) == Ok(s[key.atoms := Degrees(value)])
    ensures key.Tuple? && !(|UniqueAtoms(key.atoms)| in {3, 4}) ==> SetItem(s, key, value) == Ok(s)
  {
  }

  /** Pairs and five-index keys are dropped, as is (0, 1, 1) with two distinct
      indices. */
  lemma WrongArityDropped(s: Store, value: real)
    ensures SetItem(s, Tuple([0, 1]), value) == Ok(s)
    ensures SetItem(s, Tuple([0, 1, 2, 3, 4]), value) == Ok(s)
    ensures SetItem(s, Tuple([0, 1, 1]), value) == Ok(s)
  {
    assert SetItem(s, Tuple([0, 1]), value) == Ok(s) by {
      assert UniqueAtoms([0, 1]) == {0, 1};
    }
    assert SetItem(s, Tuple([0, 1, 2, 3, 4]), value) == Ok(s) by {
      assert UniqueAtoms([0, 1, 2, 3, 4]) == {0, 1, 2, 3, 4};
      assert |{0, 1, 2, 3, 4}| == 5;
    }
    assert SetItem(s, Tuple([0, 1, 1]), value) == Ok(s) by {
      assert UniqueAtoms([0, 1, 1]) == {0, 1};
    }
  }

  /** The arity test counts distinct indices: (0, 1, 2, 2) has three and is stored
      as given, duplicate and all. */
  lemma RepeatedIndexKeyStored(s: Store, value: real)
    ensures SetItem(s, Tuple([0, 1, 2, 2]), value) == Ok(s[[0, 1, 2, 2] := Degrees(value)])
  {
    assert UniqueAtoms([0, 1, 2, 2]) == {0, 1, 2};
    assert |{0, 1, 2}| == 3;
    assert NonNegative([0, 1, 2, 2]);
  }

  /** The keys (i, j, k) and (k, j, i) are two entries: the order is kept. */
  lemma ReversedKeyIsAnotherEntry(s: Store, i: nat, j: nat, k: nat, v: real, w: real)
    requires i != j && j != k && i != k
    ensures SetItem(s, Tuple([i, j, k]), v).Ok?
    ensures var s1 := SetItem(s, Tuple([i, j, k]), v).value;
            && SetItem(s1, Tuple([k, j, i]), w).Ok?
            && var s2 := SetItem(s1, Tuple([k, j, i]), w).value;
            && GetItem(s2, Tuple([i, j, k])) == Ok(Degrees(v))
            && GetItem(s2, Tuple([k, j, i])) == Ok(Degrees(w))
  {
    assert UniqueAtoms([i, j, k]) == {i, j, k} == UniqueAtoms([k, j, i]);
    assert |{i, j, k}| == 3;
    assert [i, j, k] != [k, j, i] by { assert [i, j, k][0] != [k, j, i][0]; }
  }

  /** An update never removes an entry and never stores an invalid one. */
  lemma {:induction false} UpdateAllGrows(s: Store, items: seq<(Key, real)>)
    requires ValidStore(s)
    ensures s.Keys <= UpdateAll(s, items).0.Keys
    ensures ValidStore(UpdateAll(s, items).0)
  {
    if items != [] {
      UpdateAllGrows(s, items[..|items| - 1]);
    }
  }

  /** Once an item raises, later items are not looked at. */
  lemma {:induction false} UpdateAllStops(s: Store, items: seq<(Key, real)>, n: nat)
    requires 0 < n <= |items|
    requires UpdateAll(s, items[..n]).1.Some?
    ensures UpdateAll(s, items) == UpdateAll(s, items[..n])
  {
    if n < |items| {
      assert items[..|items| - 1][..n] == items[..n];
      UpdateAllStops(s, items[..|items| - 1], n);
    } else {
      assert items[..n] == items;
    }
  }

  // ---------------------------------------------------------------------------
  // The mutable mapping

  class AngleConstraints {
    var store: Store

    ghost predicate Valid()
      reads this
    {
      ValidStore(store)
    }

    constructor ()
      ensures Valid() && store == map[]
    {
      store := map[];
    }

    /** `AngleConstraints(items)`: raises on the first invalid item. */
    static method FromItems(items: seq<(Key, real)>) returns (r: Result<AngleConstraints, PyError>)
      ensures Build(items).Err? ==> r == Err(Build(items).error)
      ensures Build(items).Ok? ==> r.Ok? && fresh(r.value) && r.value.Valid() && r.value.store == Build(items).value
    {
      var a := new AngleConstraints();
      var err := a.Update(items);
      if err.Some? {
        r := Err(err.value);
      } else {
        r := Ok(a);
      }
    }

    /** `a[key] = value`: on an exception nothing is stored. */
    method Set(key: Key, value: real) returns (err: Option<PyError>)
      requires Valid()
      modifies this
      ensures Valid()
      ensures SetItem(old(store), key, value).Ok? ==> err == None && store == SetItem(old(store), key, value).value
      ensures SetItem(old(store), key, value).Err? ==> err == Some(SetItem(old(store), key, value).error) && store == old(store)
    {
      match key {
        case Scalar =>
          err := Some(KeyNotIterable);
        case Tuple(atoms) =>
          var n := |UniqueAtoms(atoms)|;
          if n != 3 && n != 4 {
            err := None;
          } else if !NonNegative(atoms) {
            err := Some(NegativeIndex);
          } else {
            store := store[atoms := Degrees(value)];
            err := None;
          }
      }
    }

    /** `a[key]`. */
    function Get(key: Key): Result<Angle, PyError>
      reads this
    {
      GetItem(store, key)
    }

    /** `del a[key]`. */
    method Delete(key: Key) returns (err: Option<PyError>)
      requires Valid()
      modifies this
      ensures Valid()
      ensures DelItem(old(store), key).Ok? ==> err == None && store == DelItem(old(store), key).value
      ensures DelItem(old(store), key).Err? ==> err == Some(DelItem(old(store), key).error) && store == old(store)
    {
      match DelItem(store, key) {
        case Ok(s) => store := s; err := None;
        case Err(e) => err := Some(e);
      }
    }

    /** `len(a)`. */
    function Len(): nat
      reads this
    {
      |store|
    }

    /** `a.clear()`. */
    method Clear()
      modifies this
      ensures Valid() && store == map[]
    {
      store := map[];
    }

    /** `a.update(items)`: the items are set one by one; those before an item that
        raises stay stored. */
    method Update(items: seq<(Key, real)>) returns (err: Option<PyError>)
      requires Valid()
      modifies this
      ensures Valid()
      ensures (store, err) == UpdateAll(old(store), items)
    {
      var i := 0;
      while i < |items|
        invariant 0 <= i <= |items|
        invariant Valid()
        invariant UpdateAll(old(store), items[..i]) == (store, None)
      {
        assert items[..i + 1][..i] == items[..i];
        var e := Set(items[i].0, items[i].1);
        if e.Some? {
          UpdateAllStops(old(store), items, i + 1);
          return e;
        }
        i := i + 1;
      }
      assert items[..i] == items;
      return None;
    }

    /** `a.update(other)` for another AngleConstraints: every entry of other is
        set here, overriding on collision and keeping the rest. */
    method MergeFrom(other: AngleConstraints)
      requires Valid() && other.Valid()
      modifies this
      ensures Valid()
      ensures store == old(store) + old(other.store)
    {
      var src := other.store;
      var todo := src.Keys;
      ghost var done: set<seq<int>> := {};
      while todo != {}
        invariant todo <= src.Keys && done == src.Keys - todo
        invariant Valid()
        invariant store == old(store) + Restrict(src, done)
        decreases todo
      {
        var k :| k in todo;
        RestrictGrows(old(store), src, done, k);
        var e := Set(Tuple(k), src[k].value);
        todo := todo - {k};
        done := done + {k};
      }
      RestrictFull(src, done);
    }

    /** `a.copy()`: a deep copy sharing nothing with a. */
    method Copy() returns (c: AngleConstraints)
      requires Valid()
      ensures fresh(c) && c.Valid() && c.store == store
    {
      c := new AngleConstraints();
      c.store := store;
    }
  }

  /** A copy is independent: setting an entry in the copy leaves the original
      as it was. */
  method CopyIsIndependent(a: AngleConstraints, key: Key, value: real)
    requires a.Valid()
    ensures a.store == old(a.store)
  {
    var c := a.Copy();
    var e := c.Set(key, value);
  }
}
