/**
 * `Fragments` (autode/constraints.py:272-348): the holder of a molecule's fragment
 * constraints. It owns one FragmentConstraints object, replaces or clears it
 * through the `fragment_constraints` setter, merges into it on `update`, and
 * checks the fragments against a molecule's atom count in `verify`.
 */
module FragmentSet {
  import opened Wrappers
  import opened PyValues
  import opened FragmentStore

  class Fragments {
    var fc: FragmentConstraints

    ghost predicate Valid()
      reads this, fc
    {
      fc.Valid()
    }

    /** `Fragments()`. */
    constructor ()
      ensures Valid() && fresh(fc) && fc.Contents() == Empty
    {
      fc := new FragmentConstraints();
    }

    /** `Fragments(fragments)`: an empty store, then `update(fragments)`. */
    static method New(fragments: Option<seq<(PyValue, PyValue)>>) returns (r: Result<Fragments, PyError>)
      ensures fragments.None? ==> r.Ok? && fresh(r.value) && fresh(r.value.fc) && r.value.Valid() && r.value.fc.Contents() == Empty
      ensures fragments.Some? && Build(fragments.value).Err? ==> r == Err(Build(fragments.value).error)
      ensures fragments.Some? && Build(fragments.value).Ok? ==>
                && r.Ok? && fresh(r.value) && fresh(r.value.fc) && r.value.Valid()
                && r.value.fc.Contents() == Merged(Empty, Build(fragments.value).value)
    {
      var f := new Fragments();
      var err := f.Update(fragments);
      if err.Some? {
        r := Err(err.value);
      } else {
        r := Ok(f);
      }
    }

    /** The `fragment_constraints` getter: None while there are no fragments. */
    function Store(): (r: FragmentConstraints?)
      reads this, fc
      ensures r == null <==> fc.Len() == 0
      ensures r != null ==> r == fc
    {
      if fc.Len() == 0 then null else fc
    }

    /** The `fragment_constraints` setter: None clears the current object in place;
        a dict replaces it by a new object built from the dict, unless building raises,
        and the object it replaces keeps its entries. */
    method SetFragmentConstraints(value: Option<seq<(PyValue, PyValue)>>) returns (err: Option<PyError>)
      requires Valid()
      modifies this, fc
      ensures Valid()
      ensures value.None? ==> err.None? && fc == old(fc) && fc.Contents() == old(fc.Contents()).(entries := map[], order := [])
      ensures value.Some? && Build(value.value).Err? ==>
                err == Some(Build(value.value).error) && fc == old(fc) && fc.Contents() == old(fc.Contents())
      ensures value.Some? && Build(value.value).Ok? ==>
                err.None? && fresh(fc) && fc.Contents() == Build(value.value).value
                && old(fc).Contents() == old(fc.Contents())
    {
      match value {
        case None =>
          fc.Clear();
          err := None;
        case Some(items) =>
          var built := FragmentConstraints.FromItems(items);
          match built {
            case Err(e) =>
              err := Some(e);
            case Ok(c) =>
              fc := c;
              err := None;
          }
      }
    }

    /** `update(value)`: the dict is first built into a new object, which is then
        merged into the current one; if building raises, nothing changes. */
    method Update(value: Option<seq<(PyValue, PyValue)>>) returns (err: Option<PyError>)
      requires Valid()
      modifies fc
      ensures Valid()
      ensures value.None? ==> err.None? && fc.Contents() == old(fc.Contents())
      ensures value.Some? && Build(value.value).Err? ==> err == Some(Build(value.value).error) && fc.Contents() == old(fc.Contents())
      ensures value.Some? && Build(value.value).Ok? ==>
                err.None? && fc.Contents() == Merged(old(fc.Contents()), Build(value.value).value)
    {
      if value.None? {
        return None;
      }
      var built := FragmentConstraints.FromItems(value.value);
      match built {
        case Err(e) =>
          err := Some(e);
        case Ok(temp) =>
          fc.MergeFrom(temp);
          err := None;
      }
    }

    /** `copy()`: a deep copy sharing nothing with this object. */
    method Copy() returns (c: Fragments)
      requires Valid()
      ensures fresh(c) && fresh(c.fc) && c.Valid() && c.fc.Contents() == fc.Contents()
    {
      c := new Fragments();
      var d := fc.Copy();
      c.fc := d;
    }

    /** `[fc[key][f] for key in fc]`: the field f of every fragment, in order;
        KeyError at the first fragment without it. */
    method ColumnOf(f: string) returns (r: Result<seq<PyValue>, PyError>)
      ensures r == Column(fc.entries, fc.order, f)
      ensures r.Ok? ==> |r.value| == |fc.order|
    {
      var col: seq<PyValue> := [];
      var i := 0;
      while i < |fc.order|
        invariant 0 <= i <= |fc.order|
        invariant Column(fc.entries, fc.order[..i], f) == Ok(col) && |col| == i
      {
        var k := fc.order[i];
        assert fc.order[..i + 1][..i] == fc.order[..i];
        if !HasField(fc.entries, k, f) {
          ColumnStops(fc.entries, fc.order, f, i + 1);
          return Err(MissingKey);
        }
        col := col + [fc.entries[k].fields[f]];
        i := i + 1;
      }
      assert fc.order[..i] == fc.order;
      return Ok(col);
    }

    /** `verify(m)` for a molecule of nAtoms atoms, as written: the maximum of the
        kind's field over the fragments is compared with nAtoms. */
    method Verify(nAtoms: nat) returns (r: Result<bool, PyError>)
      requires Valid()
      ensures r == VerifyOutcome(fc.Contents(), nAtoms)
    {
      if fc.Len() == 0 {
        return Err(NoFragments);
      }
      if fc.kind.None? {
        return Err(KindUnset);
      }
      var c := ColumnOf(Field(fc.kind.value));
      if c.Err? {
        return Err(c.error);
      }
      var col := c.value;
      if col == [] {
        return Err(EmptyMaximum);
      }
      var j := 0;
      while j < |col|
        invariant 0 <= j <= |col|
        invariant forall t | 0 <= t < j :: IsNumber(col[t])
      {
        if !IsNumber(col[j]) {
          return Err(Incomparable);
        }
        j := j + 1;
      }
      var m := Maximum(Numbers(col));
      if m <= nAtoms as real {
        return Ok(true);
      }
      return Err(AtomIndexTooLarge);
    }

    /** `verify(m)` as evidently intended: over index lists, the largest index
        listed in any fragment must lie below nAtoms; blocks as written. */
    method VerifyCorrected(nAtoms: nat) returns (r: Result<bool, PyError>)
      requires Valid()
      ensures r == IntendedVerifyOutcome(fc.Contents(), nAtoms)
    {
      if fc.Len() == 0 || fc.kind != Some(AtomIdxs) {
        r := Verify(nAtoms);
        return;
      }
      var c := ColumnOf("atom_idxs");
      if c.Err? {
        return Err(c.error);
      }
      var col := c.value;
      var xs: seq<real> := [];
      var i := 0;
      while i < |col|
        invariant 0 <= i <= |col|
        invariant xs == Flatten(col[..i])
      {
        assert col[..i + 1][..i] == col[..i];
        xs := xs + ListedNumbers(col[i]);
        i := i + 1;
      }
      assert col[..i] == col;
      if xs == [] {
        return Err(EmptyMaximum);
      }
      var m := Maximum(xs);
      if m < nAtoms as real {
        return Ok(true);
      }
      return Err(AtomIndexTooLarge);
    }
  }

  /** `max(xs)` of a non-empty list of numbers: the largest element. */
  method Maximum(xs: seq<real>) returns (m: real)
    requires xs != []
    ensures m == MaxOf(xs)
    ensures m in xs && forall i | 0 <= i < |xs| :: xs[i] <= m
  {
    m := xs[0];
    var j := 1;
    assert xs[..1] == [xs[0]];
    while j < |xs|
      invariant 1 <= j <= |xs|
      invariant m == MaxOf(xs[..j])
      invariant m in xs && forall i | 0 <= i < j :: xs[i] <= m
    {
      assert xs[..j + 1][..j] == xs[..j];
      if xs[j] > m {
        m := xs[j];
      }
      j := j + 1;
    }
    assert xs[..j] == xs;
  }

  /** A copy is independent: clearing the copy's fragments leaves the original. */
  method CopyIsIndependent(f: Fragments)
    requires f.Valid()
    ensures f.fc.Contents() == old(f.fc.Contents())
  {
    var c := f.Copy();
    var e := c.SetFragmentConstraints(None);
  }
}
