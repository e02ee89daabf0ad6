/**
 * `Constraints` (autode/constraints.py:8-156): the constraints on a calculation,
 * made of a DistanceConstraints store, a list of atom indices fixed in space
 * ("cartesian") and an AngleConstraints store. Each part can be read (None while
 * empty), replaced, cleared and counted; `update` extends all three.
 */
module ConstraintSet {
  import opened Wrappers
  import opened PyValues
  import opened AtomKeys
  import DistanceStore
  import AngleStore

  /** The three parts of a Constraints object, as values. */
  datatype Parts = Parts(distances: DistanceStore.Store, cartesian: seq<int>, angles: AngleStore.Store)

  const NoParts := Parts(map[], [], map[])

  ghost predicate ValidParts(p: Parts) {
    DistanceStore.ValidStore(p.distances) && AngleStore.ValidStore(p.angles)
  }

  /** `update(distance, cartesian, angular)`: the distance dict is built into a
      new store and merged in, then the cartesian list is appended, then the
      angular dict is built and merged in. Building is where exceptions come from;
      an exception stops the update but keeps what earlier steps did. */
  function UpdateParts(p: Parts, distance: Option<seq<(Key, real)>>, cartesian: Option<seq<int>>,
                       angular: Option<seq<(Key, real)>>): (Parts, Option<PyError>)
  {
    var d := if distance.None? then Ok(p.distances) else
               match DistanceStore.Build(distance.value)
               case Err(e) => Err(e)
               case Ok(s) => Ok(p.distances + s);
    if d.Err? then (p, Some(d.error))
    else
      var p1 := p.(distances := d.value, cartesian := if cartesian.None? then p.cartesian else p.cartesian + cartesian.value);
      if angular.None? then (p1, None)
      else
        match AngleStore.Build(angular.value)
        case Err(e) => (p1, Some(e))
        case Ok(s) => (p1.(angles := p1.angles + s), None)
  }

  /** The `cartesian` getter: None while empty, else the distinct indices
      (`list(set(...))`, whose order is not modelled). */
  function CartesianView(cart: seq<int>): Option<set<int>> {
    if |cart| == 0 then None else Some(set i | i in cart)
  }

  // ---------------------------------------------------------------------------
  // Properties of the specification

  /** An update with nothing to add changes nothing. */
  lemma UpdateNothing(p: Parts)
    ensures UpdateParts(p, None, None, None) == (p, None)
  {
  }

  /** A successful update keeps every old entry it does not override, stores
      every new entry, and appends the cartesian indices in order. */
  lemma UpdateMerges(p: Parts, distance: seq<(Key, real)>, cartesian: seq<int>, angular: seq<(Key, real)>)
    requires DistanceStore.Build(distance).Ok? && AngleStore.Build(angular).Ok?
    ensures var (q, e) := UpdateParts(p, Some(distance), Some(cartesian), Some(angular));
            var ds, ns := DistanceStore.Build(distance).value, AngleStore.Build(angular).value;
            && e.None?
            && q.distances.Keys == p.distances.Keys + ds.Keys
            && (forall k | k in ds :: q.distances[k] == ds[k])
            && (forall k | k in p.distances && k !in ds :: q.distances[k] == p.distances[k])
            && q.cartesian[..|p.cartesian|] == p.cartesian && q.cartesian[|p.cartesian|..] == cartesian
            && q.angles.Keys == p.angles.Keys + ns.Keys
            && (forall k | k in ns :: q.angles[k] == ns[k])
            && (forall k | k in p.angles && k !in ns :: q.angles[k] == p.angles[k])
  {
  }

  /** A distance dict that raises leaves everything as it was. */
  lemma DistanceFailureChangesNothing(p: Parts, distance: seq<(Key, real)>, cartesian: Option<seq<int>>,
                                      angular: Option<seq<(Key, real)>>)
    requires DistanceStore.Build(distance).Err?
    ensures UpdateParts(p, Some(distance), cartesian, angular) == (p, Some(DistanceStore.Build(distance).error))
  {
  }

  /** update is not atomic: when the angular dict raises, the distances already
      merged and the cartesian indices already appended stay. */
  lemma AngularFailureKeepsEarlierParts(p: Parts, distance: Option<seq<(Key, real)>>, cartesian: seq<int>,
                                        angular: seq<(Key, real)>)
    requires distance.None? || DistanceStore.Build(distance.value).Ok?
    requires AngleStore.Build(angular).Err?
    ensures var (q, e) := UpdateParts(p, distance, Some(cartesian), Some(angular));
            && e == Some(AngleStore.Build(angular).error)
            && q.cartesian == p.cartesian + cartesian
            && q.angles == p.angles
            && (distance.Some? ==> q.distances == p.distances + DistanceStore.Build(distance.value).value)
  {
  }

  /** An update keeps every part valid, whether it raises or not. */
  lemma UpdateKeepsValid(p: Parts, distance: Option<seq<(Key, real)>>, cartesian: Option<seq<int>>,
                         angular: Option<seq<(Key, real)>>)
    requires ValidParts(p)
    ensures ValidParts(UpdateParts(p, distance, cartesian, angular).0)
  {
    if distance.Some? {
      DistanceStore.BuildValid(distance.value);
    }
    if angular.Some? {
      AngleStore.UpdateAllGrows(map[], angular.value);
    }
  }

  /** The distinct cartesian indices number at most the indices listed. */
  lemma {:induction false} DistinctAtMost(cart: seq<int>)
    ensures |set i | i in cart| <= |cart|
  {
    if cart != [] {
      var init := cart[..|cart| - 1];
      DistinctAtMost(init);
      assert (set i | i in cart) == (set i | i in init) + {cart[|cart| - 1]} by {
        assert cart == init + [cart[|cart| - 1]];
      }
    }
  }

  /** The `cartesian` getter is None exactly when no index is listed, and then
      holds each listed index once, so never more than `n_cartesian` of them. */
  lemma CartesianViewBounds(cart: seq<int>)
    ensures CartesianView(cart).None? <==> |cart| == 0
    ensures CartesianView(cart).Some? ==>
              (forall i :: i in CartesianView(cart).value <==> i in cart) && |CartesianView(cart).value| <= |cart|
  {
    DistinctAtMost(cart);
  }

  /** Repeated indices are listed once: [1, 1, 2] reads back as {1, 2}. */
  lemma CartesianDeduplicates()
    ensures CartesianView([1, 1, 2]) == Some({1, 2})
  {
    assert (set i | i in [1, 1, 2]) == {1, 2};
  }

  // ---------------------------------------------------------------------------
  // The object

  class Constraints {
    var dist: DistanceStore.DistanceConstraints
    var cart: seq<int>
    var ang: AngleStore.AngleConstraints

    ghost predicate Valid()
      reads this, dist, ang
    {
      dist.Valid() && ang.Valid()
    }

    function Contents(): Parts
      reads this, dist, ang
    {
      Parts(dist.store, cart, ang.store)
    }

    /** `Constraints()`. */
    constructor ()
      ensures Valid() && fresh(dist) && fresh(ang) && Contents() == NoParts
    {
      dist := new DistanceStore.DistanceConstraints();
      cart := [];
      ang := new AngleStore.AngleConstraints();
    }

    /** `Constraints(distance, cartesian, angular)`: empty parts, then `update`;
        an exception from the update means no object. */
    static method New(distance: Option<seq<(Key, real)>>, cartesian: Option<seq<int>>,
                      angular: Option<seq<(Key, real)>>) returns (r: Result<Constraints, PyError>)
      ensures var (q, e) := UpdateParts(NoParts, distance, cartesian, angular);
              && (e.Some? ==> r == Err(e.value))
              && (e.None? ==> r.Ok? && fresh(r.value) && fresh(r.value.dist) && fresh(r.value.ang)
                                && r.value.Valid() && r.value.Contents() == q)
    {
      var c := new Constraints();
      var err := c.Update(distance, cartesian, angular);
      if err.Some? {
        r := Err(err.value);
      } else {
        r := Ok(c);
      }
    }

    /** The `distance` getter: None while there are no distance constraints. */
    function Distance(): (r: DistanceStore.DistanceConstraints?)
      reads this, dist
      ensures r == null <==> NDistance() == 0
      ensures r != null ==> r == dist
    {
      if dist.Len() == 0 then null else dist
    }

    /** `n_distance`. */
    function NDistance(): nat
      reads this, dist
    {
      dist.Len()
    }

    /** The `distance` setter: None clears the store in place; a dict replaces it by
        a new store built from the dict, unless building raises, and the store it
        replaces keeps its entries. */
    method SetDistance(value: Option<seq<(Key, real)>>) returns (err: Option<PyError>)
      requires Valid()
      modifies this, dist
      ensures Valid() && ang == old(ang) && cart == old(cart)
      ensures value.None? ==> err.None? && dist == old(dist) && dist.store == map[]
      ensures value.Some? && DistanceStore.Build(value.value).Err? ==>
                err == Some(DistanceStore.Build(value.value).error) && dist == old(dist) && dist.store == old(dist.store)
      ensures value.Some? && DistanceStore.Build(value.value).Ok? ==>
                err.None? && fresh(dist) && dist.store == DistanceStore.Build(value.value).value
                && old(dist).store == old(dist.store)
    {
      match value {
        case None =>
          dist.Clear();
          err := None;
        case Some(items) =>
          var built := DistanceStore.DistanceConstraints.FromItems(items);
          match built {
            case Err(e) =>
              err := Some(e);
            case Ok(d) =>
              dist := d;
              err := None;
          }
      }
    }

    /** The `cartesian` getter. */
    function Cartesian(): Option<set<int>>
      reads this
    {
      CartesianView(cart)
    }

    /** `n_cartesian`: the indices listed, repeats included. */
    function NCartesian(): nat
      reads this
    {
      |cart|
    }

    /** The `cartesian` setter: None empties the list; a list replaces it. */
    method SetCartesian(value: Option<seq<int>>)
      modifies this
      ensures dist == old(dist) && ang == old(ang)
      ensures cart == if value.None? then [] else value.value
    {
      cart := if value.None? then [] else value.value;
    }

    /** The `angular` getter: None while there are no angle constraints. */
    function Angular(): (r: AngleStore.AngleConstraints?)
      reads this, ang
      ensures r == null <==> NAngular() == 0
      ensures r != null ==> r == ang
    {
      if ang.Len() == 0 then null else ang
    }

    /** `n_angular`. */
    function NAngular(): nat
      reads this, ang
    {
      ang.Len()
    }

    /** The `angular` setter, as the `distance` one. */
    method SetAngular(value: Option<seq<(Key, real)>>) returns (err: Option<PyError>)
      requires Valid()
      modifies this, ang
      ensures Valid() && dist == old(dist) && cart == old(cart)
      ensures value.None? ==> err.None? && ang == old(ang) && ang.store == map[]
      ensures value.Some? && AngleStore.Build(value.value).Err? ==>
                err == Some(AngleStore.Build(value.value).error) && ang == old(ang) && ang.store == old(ang.store)
      ensures value.Some? && AngleStore.Build(value.value).Ok? ==>
                err.None? && fresh(ang) && ang.store == AngleStore.Build(value.value).value
                && old(ang).store == old(ang.store)
    {
      match value {
        case None =>
          ang.Clear();
          err := None;
        case Some(items) =>
          var built := AngleStore.AngleConstraints.FromItems(items);
          match built {
            case Err(e) =>
              err := Some(e);
            case Ok(a) =>
              ang := a;
              err := None;
          }
      }
    }

    /** `any`: whether any part holds a constraint. */
    function Any(): (r: bool)
      reads this, dist, ang
      ensures r <==> NDistance() > 0 || NCartesian() > 0 || NAngular() > 0
    {
      Distance() != null || Cartesian().Some? || Angular() != null
    }

    /** `update(distance, cartesian, angular)`: the stores are merged into in place. */
    method Update(distance: Option<seq<(Key, real)>>, cartesian: Option<seq<int>>,
                  angular: Option<seq<(Key, real)>>) returns (err: Option<PyError>)
      requires Valid()
      modifies this, dist, ang
      ensures Valid() && dist == old(dist) && ang == old(ang)
      ensures (Contents(), err) == UpdateParts(old(Contents()), distance, cartesian, angular)
    {
      if distance.Some? {
        var built := DistanceStore.DistanceConstraints.FromItems(distance.value);
        if built.Err? {
          return Some(built.error);
        }
        dist.MergeFrom(built.value);
      }
      if cartesian.Some? {
        cart := cart + cartesian.value;
      }
      if angular.Some? {
        var built := AngleStore.AngleConstraints.FromItems(angular.value);
        if built.Err? {
          return Some(built.error);
        }
        ang.MergeFrom(built.value);
      }
      return None;
    }

    /** `copy()`: a deep copy sharing nothing with this object. */
    method Copy() returns (c: Constraints)
      requires Valid()
      ensures fresh(c) && fresh(c.dist) && fresh(c.ang) && c.Valid() && c.Contents() == Contents()
    {
      c := new Constraints();
      var d := dist.Copy();
      var a := ang.Copy();
      c.dist, c.cart, c.ang := d, cart, a;
    }
  }

  /** A copy is independent: clearing every part of the copy leaves the original. */
  method CopyIsIndependent(c: Constraints)
    requires c.Valid()
    ensures c.Contents() == old(c.Contents())
  {
    var d := c.Copy();
    var e1 := d.SetDistance(None);
    d.SetCartesian(None);
    var e2 := d.SetAngular(None);
  }
}
