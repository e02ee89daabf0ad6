/**
 * `FragmentConstraints` (autode/constraints.py:350-407): a mapping from an integer
 * fragment id to an entry dict, either a block {start, end, strategy} or an index
 * list {atom_idxs, strategy}. The object also carries a `kind` attribute that every
 * entry offered to `__setitem__` overwrites with its own form, and the dict keeps
 * insertion order, which decides the last `kind` written by an update.
 */
module FragmentStore {
  import opened Wrappers
  import opened PyValues

  /** The two forms of an entry, as `kind` records them ('block', 'atom_idxs'). */
  datatype Kind = Block | AtomIdxs

  /** The state of a FragmentConstraints object: its dict (with the ids in insertion
      order) and its `kind` attribute, which is unset until an entry is offered. */
  datatype State = State(entries: map<int, PyValue>, order: seq<int>, kind: Option<Kind>)

  const Empty := State(map[], [], None)

  predicate HasBlockKeys(f: map<string, PyValue>) {
    "start" in f && "end" in f && "strategy" in f
  }

  predicate HasIndexKeys(f: map<string, PyValue>) {
    "atom_idxs" in f && "strategy" in f
  }

  /** The form an entry is taken for; the block keys are checked first. */
  function FormOf(f: map<string, PyValue>): Option<Kind> {
    if HasBlockKeys(f) then Some(Block)
    else if HasIndexKeys(f) then Some(AtomIdxs)
    else None
  }

  /** The form of an offered value; None for a non-dict. */
  function EntryForm(v: PyValue): Option<Kind> {
    if v.PDict? then FormOf(v.fields) else None
  }

  /** `all(isinstance(v[i], int) for i in range(len(v)))` for the atom_idxs value v:
      None when it holds, else the exception. A string yields one-character
      strings; a dict (keyed by strings) has no entry 0; other values have no len. */
  function AtomIdxsError(v: PyValue): Option<PyError> {
    match v
    case PList(items) => if forall i | 0 <= i < |items| :: IsInt(items[i]) then None else Some(AtomIdxsNotIntegers)
    case PStr(s) => if s == [] then None else Some(AtomIdxsNotIntegers)
    case PDict(f) => if f == map[] then None else Some(MissingKey)
    case _ => Some(NoLength)
  }

  /** An entry that `__setitem__` stores: a dict that is a block with int start and
      end, or failing that an index list whose atom_idxs are ints, with a str
      strategy either way. */
  ghost predicate WellFormedEntry(v: PyValue) {
    && v.PDict?
    && var f := v.fields;
    || (HasBlockKeys(f) && IsInt(f["start"]) && IsInt(f["end"]) && f["strategy"].PStr?)
    || (!HasBlockKeys(f) && HasIndexKeys(f) && AtomIdxsError(f["atom_idxs"]).None? && f["strategy"].PStr?)
  }

  ghost predicate Distinct(s: seq<int>) {
    forall i, j | 0 <= i < j < |s| :: s[i] != s[j]
  }

  /** The invariant of a FragmentConstraints object. */
  ghost predicate ValidState(st: State) {
    && Distinct(st.order)
    && (forall i | 0 <= i < |st.order| :: st.order[i] in st.entries)
    && (forall k | k in st.entries :: k in st.order)
    && (forall k | k in st.entries :: WellFormedEntry(st.entries[k]))
    && (st.entries != map[] ==> st.kind.Some?)
  }

  /** `self._store[k] = v` on an insertion-ordered dict. */
  function Put(st: State, k: int, v: PyValue): State {
    State(st.entries[k := v], if k in st.entries then st.order else st.order + [k], st.kind)
  }

  /** `__setitem__`: the new state and the exception raised, if any. `kind` is
      written as soon as the form is known, so an entry that then fails its checks
      still changes it; the id is converted with int() only after the entry passed. */
  function SetItem(st: State, key: PyValue, value: PyValue): (State, Option<PyError>) {
    if !value.PDict? then (st, Some(NotADict))
    else
      var f := value.fields;
      match FormOf(f)
      case None => (st, Some(MissingFragmentKeys))
      case Some(form) =>
        var st1 := st.(kind := Some(form));
        if form == Block && !(IsInt(f["start"]) && IsInt(f["end"])) then (st1, Some(BoundsNotIntegers))
        else if form == AtomIdxs && AtomIdxsError(f["atom_idxs"]).Some? then (st1, AtomIdxsError(f["atom_idxs"]))
        else if !f["strategy"].PStr? then (st1, Some(StrategyNotString))
        else
          match IntOf(key)
          case Err(e) => (st1, Some(e))
          case Ok(k) => (Put(st1, k, value), None)
  }

  /** `__getitem__`. */
  function GetItem(st: State, key: PyValue): Result<PyValue, PyError> {
    match IntOf(key)
    case Err(e) => Err(e)
    case Ok(k) => if k in st.entries then Ok(st.entries[k]) else Err(MissingKey)
  }

  /** s without k. */
  function RemoveKey(s: seq<int>, k: int): (r: seq<int>)
    ensures forall x :: x in r <==> x in s && x != k
    ensures Distinct(s) ==> Distinct(r)
  {
    if s == [] then []
    else if s[0] == k then RemoveKey(s[1..], k)
    else
      var rest := RemoveKey(s[1..], k);
      assert Distinct(s) ==> s[0] !in s[1..];
      [s[0]] + rest
  }

  /** `__delitem__`. */
  function DelItem(st: State, key: PyValue): Result<State, PyError> {
    match IntOf(key)
    case Err(e) => Err(e)
    case Ok(k) =>
      if k in st.entries then Ok(State(st.entries - {k}, RemoveKey(st.order, k), st.kind))
      else Err(MissingKey)
  }

  /** `MutableMapping.update` with the items of a dict, in order: the state after
      the items up to the first that raises, and that exception. */
  function UpdateAll(st: State, items: seq<(PyValue, PyValue)>): (State, Option<PyError>) {
    if items == [] then (st, None)
    else
      var (p, e) := UpdateAll(st, items[..|items| - 1]);
      if e.Some? then (p, e)
      else SetItem(p, items[|items| - 1].0, items[|items| - 1].1)
  }

  /** `FragmentConstraints(d)`: a new object filled from d, or the exception. */
  function Build(items: seq<(PyValue, PyValue)>): Result<State, PyError> {
    var (st, e) := UpdateAll(Empty, items);
    if e.Some? then Err(e.value) else Ok(st)
  }

  /** The items another FragmentConstraints yields when iterated: its ids in
      order, each with its entry. */
  function Items(entries: map<int, PyValue>, ks: seq<int>): (r: seq<(PyValue, PyValue)>)
    requires forall i | 0 <= i < |ks| :: ks[i] in entries
    ensures |r| == |ks|
    ensures forall i | 0 <= i < |ks| :: r[i] == (PInt(ks[i]), entries[ks[i]])
  {
    if ks == [] then []
    else Items(entries, ks[..|ks| - 1]) + [(PInt(ks[|ks| - 1]), entries[ks[|ks| - 1]])]
  }

  /** The ids of ks not already present, in order. */
  function NewKeys(ks: seq<int>, present: map<int, PyValue>): seq<int> {
    if ks == [] then []
    else NewKeys(ks[..|ks| - 1], present) + (if ks[|ks| - 1] in present then [] else [ks[|ks| - 1]])
  }

  ghost function Restrict(entries: map<int, PyValue>, ks: seq<int>): map<int, PyValue> {
    map k | k in ks && k in entries :: entries[k]
  }

  /** The state after the entries of `entries` under the ids ks are set in order. */
  ghost function MergeKeys(st: State, entries: map<int, PyValue>, ks: seq<int>): State {
    State(st.entries + Restrict(entries, ks),
          st.order + NewKeys(ks, st.entries),
          if ks == [] || ks[|ks| - 1] !in entries then st.kind else EntryForm(entries[ks[|ks| - 1]]))
  }

  /** `self.update(other)`: other's entries override, the rest are kept, new ids
      are appended in other's order, and `kind` is the form of other's last entry. */
  ghost function Merged(st: State, other: State): State {
    MergeKeys(st, other.entries, other.order)
  }

  // ---------------------------------------------------------------------------
  // Properties of the specification

  /** `__setitem__` stores exactly the well-formed entries under an id that int()
      accepts, and then stores that entry under int(id) and nothing else. */
  lemma SetItemStoresIff(st: State, key: PyValue, value: PyValue)
    ensures SetItem(st, key, value).1.None? <==> WellFormedEntry(value) && IntOf(key).Ok?
    ensures SetItem(st, key, value).1.None? ==>
              SetItem(st, key, value).0.entries == st.entries[IntOf(key).value := value]
    ensures SetItem(st, key, value).1.Some? ==> SetItem(st, key, value).0.entries == st.entries
  {
  }

  /** A well-formed entry is stored whatever else it holds, and `kind` becomes its form. */
  lemma SetWellFormed(st: State, key: PyValue, value: PyValue)
    requires WellFormedEntry(value) && IntOf(key).Ok?
    ensures SetItem(st, key, value) == (Put(st.(kind := EntryForm(value)), IntOf(key).value, value), None)
  {
  }

  /** An entry with both key sets is taken as a block: it is stored (provided start
      and end are ints and strategy a str) whatever its atom_idxs holds, and `kind`
      becomes Block. */
  lemma BothFormsTakenAsBlock(st: State, k: int, start: int, end: int, strategy: string, idxs: PyValue)
    ensures var v := PDict(map["start" := PInt(start), "end" := PInt(end), "strategy" := PStr(strategy), "atom_idxs" := idxs]);
            SetItem(st, PInt(k), v) == (Put(st.(kind := Some(Block)), k, v), None)
  {
    var v := PDict(map["start" := PInt(start), "end" := PInt(end), "strategy" := PStr(strategy), "atom_idxs" := idxs]);
    assert HasBlockKeys(v.fields);
  }

  /** `kind` follows every entry whose form is recognised, even when the entry then
      raises; entries of neither form, and values that are not dicts, leave it. */
  lemma KindFollowsOfferedEntry(st: State, key: PyValue, value: PyValue)
    ensures value.PDict? && FormOf(value.fields).Some? ==> SetItem(st, key, value).0.kind == FormOf(value.fields)
    ensures !(value.PDict? && FormOf(value.fields).Some?) ==> SetItem(st, key, value).0 == st
  {
  }

  /** A block whose start is not an int raises, yet switches `kind` to Block. */
  lemma FailedBlockStillSetsKind(st: State, key: PyValue)
    ensures var v := PDict(map["start" := PFloat(0.5), "end" := PInt(4), "strategy" := PStr("fix")]);
            SetItem(st, key, v) == (st.(kind := Some(Block)), Some(BoundsNotIntegers))
  {
    var v := PDict(map["start" := PFloat(0.5), "end" := PInt(4), "strategy" := PStr("fix")]);
    assert HasBlockKeys(v.fields);
  }

  /** An entry lacking strategy, or anything that is not a dict, raises. */
  lemma MissingStrategyRaises(st: State, key: PyValue)
    ensures SetItem(st, key, PDict(map["start" := PInt(0), "end" := PInt(4)])) == (st, Some(MissingFragmentKeys))
    ensures SetItem(st, key, PDict(map["atom_idxs" := PList([PInt(0)])])) == (st, Some(MissingFragmentKeys))
    ensures SetItem(st, key, PList([])) == (st, Some(NotADict))
  {
    assert !HasBlockKeys(map["start" := PInt(0), "end" := PInt(4)]);
    assert !HasIndexKeys(map["start" := PInt(0), "end" := PInt(4)]);
  }

  /** Ids with the same int() value address the same entry. */
  lemma SameIdSameEntry(st: State, k1: PyValue, k2: PyValue, value: PyValue)
    requires IntOf(k1).Ok? && IntOf(k1) == IntOf(k2)
    ensures SetItem(st, k1, value) == SetItem(st, k2, value)
    ensures GetItem(st, k1) == GetItem(st, k2)
  {
  }

  /** `__setitem__` keeps the object's invariant, whether it stores or raises. */
  lemma SetItemKeepsValid(st: State, key: PyValue, value: PyValue)
    requires ValidState(st)
    ensures ValidState(SetItem(st, key, value).0)
  {
    if SetItem(st, key, value).1.None? {
      SetItemStoresIff(st, key, value);
      SetWellFormed(st, key, value);
      PutKeepsValid(st.(kind := EntryForm(value)), IntOf(key).value, value);
    } else {
      KindFollowsOfferedEntry(st, key, value);
      SetItemStoresIff(st, key, value);
    }
  }

  /** Storing a well-formed entry under an id keeps the ids distinct and in step
      with the entries. */
  lemma PutKeepsValid(st: State, k: int, v: PyValue)
    requires ValidState(st) && WellFormedEntry(v) && st.kind.Some?
    ensures ValidState(Put(st, k, v))
  {
    if k !in st.entries {
      assert k !in st.order;
      var o := st.order + [k];
      forall i, j | 0 <= i < j < |o| ensures o[i] != o[j] {
        if j == |o| - 1 {
          assert o[i] in st.order;
        }
      }
    }
  }

  /** `__delitem__` keeps the invariant. */
  lemma DelItemKeepsValid(st: State, key: PyValue)
    requires ValidState(st)
    ensures DelItem(st, key).Ok? ==> ValidState(DelItem(st, key).value)
  {
    if DelItem(st, key).Ok? {
      var k := IntOf(key).value;
      var r := RemoveKey(st.order, k);
      forall i | 0 <= i < |r| ensures r[i] in st.entries && r[i] != k {
        assert r[i] in r;
        var j :| 0 <= j < |st.order| && st.order[j] == r[i];
      }
    }
  }

  /** Updates keep the invariant. */
  lemma {:induction false} UpdateAllKeepsValid(st: State, items: seq<(PyValue, PyValue)>)
    requires ValidState(st)
    ensures ValidState(UpdateAll(st, items).0)
  {
    if items != [] {
      UpdateAllKeepsValid(st, items[..|items| - 1]);
      var last := items[|items| - 1];
      SetItemKeepsValid(UpdateAll(st, items[..|items| - 1]).0, last.0, last.1);
    }
  }

  /** Once an item raises, later items are not looked at. */
  lemma {:induction false} UpdateAllStops(st: State, items: seq<(PyValue, PyValue)>, n: nat)
    requires 0 < n <= |items|
    requires UpdateAll(st, items[..n]).1.Some?
    ensures UpdateAll(st, items) == UpdateAll(st, items[..n])
  {
    if n < |items| {
      assert items[..|items| - 1][..n] == items[..n];
      UpdateAllStops(st, items[..|items| - 1], n);
    } else {
      assert items[..n] == items;
    }
  }

  /** After a dict is taken in without error, `kind` is the form of its last item:
      the last one wins. */
  lemma BuildKindIsLastForm(items: seq<(PyValue, PyValue)>)
    requires items != [] && Build(items).Ok?
    ensures items[|items| - 1].1.PDict?
    ensures Build(items).value.kind == FormOf(items[|items| - 1].1.fields)
  {
    var last := items[|items| - 1];
    SetItemStoresIff(UpdateAll(Empty, items[..|items| - 1]).0, last.0, last.1);
  }

  /** The last id of a list of distinct ids does not occur before it. */
  lemma LastIsNew(ks: seq<int>)
    requires ks != [] && Distinct(ks)
    ensures ks[|ks| - 1] !in ks[..|ks| - 1]
  {
    var n := |ks| - 1;
    forall i | 0 <= i < n ensures ks[..n][i] != ks[n] {
      assert ks[..n][i] == ks[i];
    }
  }

  lemma RestrictSnoc(entries: map<int, PyValue>, ks: seq<int>, last: int)
    requires last in entries
    ensures Restrict(entries, ks + [last]) == Restrict(entries, ks)[last := entries[last]]
  {
    forall x ensures x in ks + [last] <==> x in ks || x == last {
    }
  }

  lemma MergeKeysStepEntries(st: State, entries: map<int, PyValue>, ks: seq<int>)
    requires ks != [] && ks[|ks| - 1] in entries
    ensures var last := ks[|ks| - 1];
            MergeKeys(st, entries, ks[..|ks| - 1]).entries[last := entries[last]] == MergeKeys(st, entries, ks).entries
  {
    var n := |ks| - 1;
    assert ks == ks[..n] + [ks[n]];
    RestrictSnoc(entries, ks[..n], ks[n]);
  }

  lemma MergeKeysStepOrder(st: State, entries: map<int, PyValue>, ks: seq<int>)
    requires ks != [] && Distinct(ks)
    ensures var last := ks[|ks| - 1];
            var m := MergeKeys(st, entries, ks[..|ks| - 1]);
            (if last in m.entries then m.order else m.order + [last]) == MergeKeys(st, entries, ks).order
  {
    LastIsNew(ks);
    assert ks[|ks| - 1] !in Restrict(entries, ks[..|ks| - 1]);
  }

  /** Setting one more entry extends MergeKeys by that entry. */
  lemma MergeKeysStep(st: State, entries: map<int, PyValue>, ks: seq<int>)
    requires ks != [] && Distinct(ks) && ks[|ks| - 1] in entries
    ensures var last := ks[|ks| - 1];
            var m := MergeKeys(st, entries, ks[..|ks| - 1]);
            Put(m.(kind := EntryForm(entries[last])), last, entries[last]) == MergeKeys(st, entries, ks)
  {
    MergeKeysStepEntries(st, entries, ks);
    MergeKeysStepOrder(st, entries, ks);
  }

  /** When the items before the last one gave MergeKeys of all ids but the last,
      setting the last id's well-formed entry gives MergeKeys of all of them. */
  lemma MergeKeysCorrectStep(st: State, entries: map<int, PyValue>, ks: seq<int>, items: seq<(PyValue, PyValue)>)
    requires ks != [] && Distinct(ks)
    requires ks[|ks| - 1] in entries && WellFormedEntry(entries[ks[|ks| - 1]])
    requires items != [] && items[|items| - 1] == (PInt(ks[|ks| - 1]), entries[ks[|ks| - 1]])
    requires UpdateAll(st, items[..|items| - 1]) == (MergeKeys(st, entries, ks[..|ks| - 1]), None)
    ensures UpdateAll(st, items) == (MergeKeys(st, entries, ks), None)
  {
    var last := ks[|ks| - 1];
    var m := MergeKeys(st, entries, ks[..|ks| - 1]);
    assert UpdateAll(st, items) == SetItem(m, PInt(last), entries[last]);
    SetWellFormed(m, PInt(last), entries[last]);
    MergeKeysStep(st, entries, ks);
  }

  /** Setting the entries of a well-formed mapping under the ids ks, in order,
      raises nothing and gives MergeKeys. */
  lemma {:induction false} MergeKeysCorrect(st: State, entries: map<int, PyValue>, ks: seq<int>)
    requires Distinct(ks)
    requires forall i | 0 <= i < |ks| :: ks[i] in entries && WellFormedEntry(entries[ks[i]])
    ensures UpdateAll(st, Items(entries, ks)) == (MergeKeys(st, entries, ks), None)
  {
    if ks != [] {
      var n := |ks| - 1;
      var ks' := ks[..n];
      var items := Items(entries, ks);
      assert items[..n] == Items(entries, ks');
      assert Distinct(ks');
      MergeKeysCorrect(st, entries, ks');
      MergeKeysCorrectStep(st, entries, ks, items);
    } else {
      assert Restrict(entries, ks) == map[];
      assert st.entries + map[] == st.entries;
      assert st.order + [] == st.order;
      assert MergeKeys(st, entries, ks) == st;
    }
  }

  /** `kind` after a merge is the form of the argument's last entry, which need not
      be the merged mapping's last entry: blocks under ids 1 and 2, updated from an
      index list under id 1, keep the order [1, 2] and block 2 last, yet take the
      kind 'atom_idxs'. */
  lemma MergedKindFollowsArgument(b1: PyValue, b2: PyValue, idxs: PyValue)
    requires EntryForm(idxs) == Some(AtomIdxs)
    ensures var m := Merged(State(map[1 := b1, 2 := b2], [1, 2], Some(Block)),
                            State(map[1 := idxs], [1], Some(AtomIdxs)));
            && m.order == [1, 2] && m.entries[2] == b2 && m.kind == Some(AtomIdxs)
  {
    var present := map[1 := b1, 2 := b2];
    assert NewKeys([1], present) == [] by {
      assert [1][..0] == [];
    }
    assert Restrict(map[1 := idxs], [1]) == map[1 := idxs];
  }

  lemma RestrictAll(entries: map<int, PyValue>, ks: seq<int>)
    requires forall k | k in entries :: k in ks
    ensures Restrict(entries, ks) == entries
  {
    assert forall k :: k in Restrict(entries, ks) <==> k in entries;
  }

  /** Merging another valid object: nothing raises, its entries override, the
      rest are kept, and `kind` is the form of its last entry. */
  lemma MergeCorrect(st: State, other: State)
    requires ValidState(st) && ValidState(other)
    ensures UpdateAll(st, Items(other.entries, other.order)) == (Merged(st, other), None)
    ensures ValidState(Merged(st, other))
    ensures Merged(st, other).entries == st.entries + other.entries
  {
    var items := Items(other.entries, other.order);
    MergeKeysCorrect(st, other.entries, other.order);
    UpdateAllKeepsValid(st, items);
    RestrictAll(other.entries, other.order);
  }

  // ---------------------------------------------------------------------------
  // Fragments.verify

  /** The entry key whose values verify compares: 'end' for blocks, 'atom_idxs'
      for index lists. */
  function Field(kind: Kind): string {
    match kind
    case Block => "end"
    case AtomIdxs => "atom_idxs"
  }

  predicate HasField(entries: map<int, PyValue>, k: int, f: string) {
    k in entries && entries[k].PDict? && f in entries[k].fields
  }

  /** `[fc[key][f] for key in fc]`: a KeyError at the first entry without f. */
  function Column(entries: map<int, PyValue>, ks: seq<int>, f: string): (r: Result<seq<PyValue>, PyError>)
    ensures r.Err? ==> r == Err(MissingKey)
  {
    if ks == [] then Ok([])
    else
      match Column(entries, ks[..|ks| - 1], f)
      case Err(e) => Err(e)
      case Ok(col) =>
        var k := ks[|ks| - 1];
        if HasField(entries, k, f) then Ok(col + [entries[k].fields[f]]) else Err(MissingKey)
  }

  /** `max` of a non-empty list of numbers. */
  function MaxOf(xs: seq<real>): real
    requires xs != []
  {
    if |xs| == 1 then xs[0]
    else
      var m := MaxOf(xs[..|xs| - 1]);
      if xs[|xs| - 1] > m then xs[|xs| - 1] else m
  }

  function Numbers(col: seq<PyValue>): (r: seq<real>)
  {
    seq(|col|, i requires 0 <= i < |col| => NumberValue(col[i]))
  }

  /** `Fragments.verify(m)` for a molecule of nAtoms atoms: True, or the exception.
      With no entries the getter gives None and `.kind` fails; otherwise the
      maximum of the kind's field over all entries must be <= nAtoms. */
  function VerifyOutcome(st: State, nAtoms: nat): Result<bool, PyError> {
    if st.entries == map[] then Err(NoFragments)
    else
      match st.kind
      case None => Err(KindUnset)
      case Some(kind) =>
        match Column(st.entries, st.order, Field(kind))
        case Err(e) => Err(e)
        case Ok(col) =>
          if col == [] then Err(EmptyMaximum)
          else if exists i | 0 <= i < |col| :: !IsNumber(col[i]) then Err(Incomparable)
          else if MaxOf(Numbers(col)) <= nAtoms as real then Ok(true)
          else Err(AtomIndexTooLarge)
  }

  /** The maximum is at most n exactly when every element is. */
  lemma {:induction false} MaxOfAtMost(xs: seq<real>, n: real)
    requires xs != []
    ensures MaxOf(xs) <= n <==> forall i | 0 <= i < |xs| :: xs[i] <= n
  {
    if |xs| > 1 {
      var init := xs[..|xs| - 1];
      MaxOfAtMost(init, n);
      assert forall i | 0 <= i < |xs| - 1 :: xs[i] == init[i];
    }
  }

  /** The maximum is below n exactly when every element is. */
  lemma {:induction false} MaxOfBelow(xs: seq<real>, n: real)
    requires xs != []
    ensures MaxOf(xs) < n <==> forall i | 0 <= i < |xs| :: xs[i] < n
  {
    if |xs| > 1 {
      var init := xs[..|xs| - 1];
      MaxOfBelow(init, n);
      assert forall i | 0 <= i < |xs| - 1 :: xs[i] == init[i];
    }
  }

  /** When every id has the field, the column holds the field of each entry in order. */
  lemma {:induction false} ColumnOfPresent(entries: map<int, PyValue>, ks: seq<int>, f: string)
    requires forall i | 0 <= i < |ks| :: ks[i] in entries && entries[ks[i]].PDict? && f in entries[ks[i]].fields
    ensures Column(entries, ks, f).Ok?
    ensures |Column(entries, ks, f).value| == |ks|
    ensures forall i | 0 <= i < |ks| :: Column(entries, ks, f).value[i] == entries[ks[i]].fields[f]
  {
    if ks != [] {
      ColumnOfPresent(entries, ks[..|ks| - 1], f);
    }
  }

  /** An id without the field makes the column a KeyError. */
  lemma {:induction false} ColumnOfAbsent(entries: map<int, PyValue>, ks: seq<int>, f: string, k: int)
    requires k in ks && !HasField(entries, k, f)
    ensures Column(entries, ks, f) == Err(MissingKey)
  {
    var ks' := ks[..|ks| - 1];
    if ks[|ks| - 1] != k {
      assert k in ks' by {
        var i :| 0 <= i < |ks| && ks[i] == k;
        assert ks'[i] == k;
      }
      ColumnOfAbsent(entries, ks', f, k);
    }
  }

  /** Once the column fails on a prefix, it fails for the whole. */
  lemma {:induction false} ColumnStops(entries: map<int, PyValue>, ks: seq<int>, f: string, n: nat)
    requires 0 < n <= |ks|
    requires Column(entries, ks[..n], f).Err?
    ensures Column(entries, ks, f) == Column(entries, ks[..n], f)
  {
    if n < |ks| {
      assert ks[..|ks| - 1][..n] == ks[..n];
      ColumnStops(entries, ks[..|ks| - 1], f, n);
    } else {
      assert ks[..n] == ks;
    }
  }

  /** verify only ever returns True; every other outcome is an exception. */
  lemma VerifyNeverFalse(st: State, nAtoms: nat)
    ensures VerifyOutcome(st, nAtoms) != Ok(false)
  {
  }

  /** A valid object with entries lists at least one id. */
  lemma NonEmptyOrder(st: State)
    requires ValidState(st)
    ensures st.entries != map[] ==> st.order != []
  {
    if st.order == [] {
      assert forall k :: k !in st.entries;
      assert st.entries == map[];
    }
  }

  /** A valid collection of blocks has its ends, one per entry and all numbers,
      as its 'end' column. */
  lemma BlockEnds(st: State)
    requires ValidState(st) && st.entries != map[]
    requires forall k | k in st.entries :: HasBlockKeys(st.entries[k].fields)
    ensures Column(st.entries, st.order, "end").Ok?
    ensures var col := Column(st.entries, st.order, "end").value;
            && col != [] && |col| == |st.order|
            && forall i | 0 <= i < |col| :: col[i] == st.entries[st.order[i]].fields["end"] && IsNumber(col[i])
  {
    forall i | 0 <= i < |st.order| ensures HasField(st.entries, st.order[i], "end") {
      assert st.order[i] in st.entries;
    }
    ColumnOfPresent(st.entries, st.order, "end");
    NonEmptyOrder(st);
  }

  /** On a collection of blocks whose kind is 'block', verify returns True exactly
      when every end is <= nAtoms (an end equal to the atom count passes) and
      raises a ValueError otherwise. */
  lemma VerifyBlocks(st: State, nAtoms: nat)
    requires ValidState(st) && st.entries != map[] && st.kind == Some(Block)
    requires forall k | k in st.entries :: HasBlockKeys(st.entries[k].fields)
    ensures VerifyOutcome(st, nAtoms) ==
              if forall k | k in st.entries :: NumberValue(st.entries[k].fields["end"]) <= nAtoms as real
              then Ok(true) else Err(AtomIndexTooLarge)
  {
    BlockEnds(st);
    var col := Column(st.entries, st.order, "end").value;
    var xs := Numbers(col);
    MaxOfAtMost(xs, nAtoms as real);
    assert VerifyOutcome(st, nAtoms) == if MaxOf(xs) <= nAtoms as real then Ok(true) else Err(AtomIndexTooLarge);
    if forall k | k in st.entries :: NumberValue(st.entries[k].fields["end"]) <= nAtoms as real {
      forall i | 0 <= i < |xs| ensures xs[i] <= nAtoms as real {
        assert st.order[i] in st.entries;
      }
    } else {
      var k :| k in st.entries && NumberValue(st.entries[k].fields["end"]) > nAtoms as real;
      assert k in st.order;
      var i :| 0 <= i < |st.order| && st.order[i] == k;
      assert xs[i] > nAtoms as real;
    }
  }

  /** A collection whose kind is 'block' but which holds an entry without 'end'
      (an index list set before the last block): verify raises a KeyError. */
  lemma VerifyMixedKinds(st: State, nAtoms: nat, k: int)
    requires ValidState(st) && st.kind == Some(Block)
    requires k in st.entries && "end" !in st.entries[k].fields
    ensures VerifyOutcome(st, nAtoms) == Err(MissingKey)
  {
    ColumnOfAbsent(st.entries, st.order, "end", k);
  }

  // ---------------------------------------------------------------------------
  // verify on index lists

  /** The atom indices an atom_idxs value lists, as numbers (the str and dict
      values that `__setitem__` lets through are empty). */
  function ListedNumbers(v: PyValue): seq<real> {
    if v.PList? then Numbers(v.items) else []
  }

  /** The atom indices an entry lists under atom_idxs. */
  function Listed(v: PyValue): seq<real> {
    if v.PDict? && "atom_idxs" in v.fields then ListedNumbers(v.fields["atom_idxs"]) else []
  }

  /** All atom indices listed in a column of atom_idxs values, in order. */
  function Flatten(col: seq<PyValue>): seq<real> {
    if col == [] then [] else Flatten(col[..|col| - 1]) + ListedNumbers(col[|col| - 1])
  }

  /** `verify` as evidently intended: for a collection of index lists the largest
      listed atom index, rather than the largest list, is compared with the atom
      count, and since atom indices count from 0 it must lie below it; every other
      case is as written. */
  function IntendedVerifyOutcome(st: State, nAtoms: nat): Result<bool, PyError> {
    if st.entries != map[] && st.kind == Some(AtomIdxs) then
      match Column(st.entries, st.order, "atom_idxs")
      case Err(e) => Err(e)
      case Ok(col) =>
        var xs := Flatten(col);
        if xs == [] then Err(EmptyMaximum)
        else if MaxOf(xs) < nAtoms as real then Ok(true)
        else Err(AtomIndexTooLarge)
    else VerifyOutcome(st, nAtoms)
  }

  /** An index is in a flattened column exactly when some list of it holds it. */
  lemma {:induction false} FlattenMembers(col: seq<PyValue>)
    ensures forall x :: x in Flatten(col) <==> exists i | 0 <= i < |col| :: x in ListedNumbers(col[i])
  {
    if col != [] {
      var init, last := col[..|col| - 1], col[|col| - 1];
      FlattenMembers(init);
      assert forall i | 0 <= i < |init| :: init[i] == col[i];
      forall x ensures x in Flatten(col) <==> exists i | 0 <= i < |col| :: x in ListedNumbers(col[i]) {
        assert x in Flatten(col) <==> x in Flatten(init) || x in ListedNumbers(last);
        if x in ListedNumbers(last) {
          assert x in ListedNumbers(col[|col| - 1]);
        }
      }
    }
  }

  /** The index-list column of a valid collection of index lists has the listed
      indices of each entry, in order. */
  lemma IndexListColumn(st: State)
    requires ValidState(st)
    requires forall k | k in st.entries :: !HasBlockKeys(st.entries[k].fields)
    ensures Column(st.entries, st.order, "atom_idxs").Ok?
    ensures var col := Column(st.entries, st.order, "atom_idxs").value;
            && |col| == |st.order|
            && forall i | 0 <= i < |col| :: col[i] == st.entries[st.order[i]].fields["atom_idxs"]
  {
    forall i | 0 <= i < |st.order| ensures HasField(st.entries, st.order[i], "atom_idxs") {
      assert st.order[i] in st.entries;
    }
    ColumnOfPresent(st.entries, st.order, "atom_idxs");
  }

  /** As written, verify on a collection of index lists never returns: max() picks
      a list (or the only one) and `list <= int` raises a TypeError. */
  lemma VerifyIndexListsRaise(st: State, nAtoms: nat)
    requires ValidState(st) && st.entries != map[] && st.kind == Some(AtomIdxs)
    requires forall k | k in st.entries :: !HasBlockKeys(st.entries[k].fields)
    ensures VerifyOutcome(st, nAtoms) == Err(Incomparable)
  {
    IndexListColumn(st);
    NonEmptyOrder(st);
    var col := Column(st.entries, st.order, "atom_idxs").value;
    assert st.order[0] in st.entries;
    assert AtomIdxsError(col[0]).None?;
    assert !IsNumber(col[0]);
  }

  /** Some entry lists an atom index. */
  ghost predicate SomeListed(entries: map<int, PyValue>) {
    exists k, x | k in entries :: x in Listed(entries[k])
  }

  /** Every atom index listed by an entry is below n. */
  ghost predicate ListedBelow(entries: map<int, PyValue>, n: real) {
    forall k, x | k in entries && x in Listed(entries[k]) :: x < n
  }

  /** The indices listed across a valid collection are those of its flattened column. */
  lemma ListedAcross(st: State, col: seq<PyValue>)
    requires ValidState(st) && |col| == |st.order|
    requires forall i | 0 <= i < |col| :: ListedNumbers(col[i]) == Listed(st.entries[st.order[i]])
    ensures forall x :: x in Flatten(col) <==> exists k | k in st.entries :: x in Listed(st.entries[k])
  {
    FlattenMembers(col);
    forall x ensures x in Flatten(col) <==> exists k | k in st.entries :: x in Listed(st.entries[k]) {
      if x in Flatten(col) {
        var i :| 0 <= i < |col| && x in ListedNumbers(col[i]);
        assert st.order[i] in st.entries;
      }
      if exists k | k in st.entries :: x in Listed(st.entries[k]) {
        var k :| k in st.entries && x in Listed(st.entries[k]);
        var i :| 0 <= i < |st.order| && st.order[i] == k;
        assert x in ListedNumbers(col[i]);
      }
    }
  }

  /** A list holding exactly the listed indices is non-empty, or below n,
      exactly when the listed indices are. */
  lemma ListedVerdicts(entries: map<int, PyValue>, xs: seq<real>, n: real)
    requires forall x :: x in xs <==> exists k | k in entries :: x in Listed(entries[k])
    ensures (exists x :: x in xs) <==> SomeListed(entries)
    ensures (forall x | x in xs :: x < n) <==> ListedBelow(entries, n)
  {
    if SomeListed(entries) {
      var k, x :| k in entries && x in Listed(entries[k]);
      assert x in xs;
    }
    if forall x | x in xs :: x < n {
      forall k, x | k in entries && x in Listed(entries[k]) ensures x < n {
        assert x in xs;
      }
    }
  }

  /** A list of indices has a maximum below n exactly when it is non-empty and
      all of them are below n. */
  lemma MaxBelow(xs: seq<real>, n: real)
    ensures (xs != [] && MaxOf(xs) < n) <==> (exists x :: x in xs) && forall x | x in xs :: x < n
  {
    if xs == [] {
      assert forall x :: x !in xs;
    } else {
      MaxOfBelow(xs, n);
      assert xs[0] in xs;
      assert (forall x | x in xs :: x < n) <==> (forall i | 0 <= i < |xs| :: xs[i] < n) by {
        if forall x | x in xs :: x < n {
          forall i | 0 <= i < |xs| ensures xs[i] < n {
            assert xs[i] in xs;
          }
        }
        if forall i | 0 <= i < |xs| :: xs[i] < n {
          forall x | x in xs ensures x < n {
            var i :| 0 <= i < |xs| && xs[i] == x;
          }
        }
      }
    }
  }

  /** On a valid collection of index lists, the intended verify compares the
      maximum of the flattened column. */
  lemma IntendedOnIndexLists(st: State, nAtoms: nat)
    requires ValidState(st) && st.entries != map[] && st.kind == Some(AtomIdxs)
    requires forall k | k in st.entries :: !HasBlockKeys(st.entries[k].fields)
    ensures Column(st.entries, st.order, "atom_idxs").Ok?
    ensures var xs := Flatten(Column(st.entries, st.order, "atom_idxs").value);
            IntendedVerifyOutcome(st, nAtoms) == Ok(true) <==> xs != [] && MaxOf(xs) < nAtoms as real
  {
    IndexListColumn(st);
  }

  /** As intended, verify on a collection of index lists returns True exactly when
      some index is listed and every listed index is below nAtoms. */
  lemma IntendedIndexListsIff(st: State, nAtoms: nat)
    requires ValidState(st) && st.entries != map[] && st.kind == Some(AtomIdxs)
    requires forall k | k in st.entries :: !HasBlockKeys(st.entries[k].fields)
    ensures IntendedVerifyOutcome(st, nAtoms) == Ok(true) <==>
              SomeListed(st.entries) && ListedBelow(st.entries, nAtoms as real)
  {
    IntendedOnIndexLists(st, nAtoms);
    IndexListColumn(st);
    var col := Column(st.entries, st.order, "atom_idxs").value;
    MaxBelow(Flatten(col), nAtoms as real);
    ListedAcross(st, col);
    ListedVerdicts(st.entries, Flatten(col), nAtoms as real);
  }

  /** A dict of one well-formed entry under an int id builds to that one entry,
      with its form as kind. */
  lemma BuildOne(k: int, v: PyValue)
    requires WellFormedEntry(v)
    ensures Build([(PInt(k), v)]) == Ok(State(map[k := v], [k], EntryForm(v)))
  {
    var items := [(PInt(k), v)];
    assert items[..0] == [];
    assert UpdateAll(Empty, items[..0]) == (Empty, None);
    assert UpdateAll(Empty, items) == SetItem(Empty, PInt(k), v);
    SetWellFormed(Empty, PInt(k), v);
    assert [] + [k] == [k];
    assert Put(Empty.(kind := EntryForm(v)), k, v) == State(map[k := v], [k], EntryForm(v));
  }

  /** A dict of two well-formed entries under distinct int ids builds to both, in
      order, with the second one's form as kind. */
  lemma BuildTwo(k1: int, v1: PyValue, k2: int, v2: PyValue)
    requires WellFormedEntry(v1) && WellFormedEntry(v2) && k1 != k2
    ensures Build([(PInt(k1), v1), (PInt(k2), v2)]) ==
              Ok(State(map[k1 := v1, k2 := v2], [k1, k2], EntryForm(v2)))
  {
    var items := [(PInt(k1), v1), (PInt(k2), v2)];
    assert items[..1] == [(PInt(k1), v1)];
    BuildOne(k1, v1);
    var st1 := State(map[k1 := v1], [k1], EntryForm(v1));
    assert UpdateAll(Empty, items[..1]) == (st1, None);
    SetWellFormed(st1, PInt(k2), v2);
    assert [k1] + [k2] == [k1, k2];
  }

  /** The atom indices 0-4 of the tests' index list, as numbers: 0 first, none
      above 4. */
  lemma FirstFiveIndices()
    ensures var xs := Numbers([PInt(0), PInt(1), PInt(2), PInt(3), PInt(4)]);
            && xs != [] && xs[0] == 0.0 && forall i | 0 <= i < |xs| :: xs[i] <= 4.0
  {
    var items := [PInt(0), PInt(1), PInt(2), PInt(3), PInt(4)];
    forall i | 0 <= i < |items| ensures NumberValue(items[i]) <= 4.0 {
      assert items[i].PInt? && items[i].i <= 4;
    }
  }

  /** A collection of one entry lists every index below n when that entry's list
      does. */
  lemma ListedBelowOne(k: int, v: PyValue, n: real)
    requires forall i | 0 <= i < |Listed(v)| :: Listed(v)[i] < n
    ensures ListedBelow(map[k := v], n)
  {
    var m := map[k := v];
    forall k', x | k' in m && x in Listed(m[k']) ensures x < n {
      assert k' == k;
      var i :| 0 <= i < |Listed(v)| && Listed(v)[i] == x;
    }
  }

  /** The index list of the tests is a well-formed entry, and a collection of it
      alone is valid. */
  lemma IndexListEntry(items: seq<PyValue>)
    requires forall i | 0 <= i < |items| :: IsInt(items[i])
    ensures var idxs := PDict(map["atom_idxs" := PList(items), "strategy" := PStr("fix")]);
            && WellFormedEntry(idxs) && EntryForm(idxs) == Some(AtomIdxs)
            && ValidState(State(map[1 := idxs], [1], Some(AtomIdxs)))
  {
    var idxs := PDict(map["atom_idxs" := PList(items), "strategy" := PStr("fix")]);
    assert !HasBlockKeys(idxs.fields) && HasIndexKeys(idxs.fields);
  }

  /** The verdicts on the index list of the tests over a 21-atom molecule. */
  lemma IndexListVerdicts(st: State)
    requires st == State(map[1 := PDict(map["atom_idxs" := PList([PInt(0), PInt(1), PInt(2), PInt(3), PInt(4)]), "strategy" := PStr("fix")])], [1], Some(AtomIdxs))
    ensures VerifyOutcome(st, 21) == Err(Incomparable)
    ensures IntendedVerifyOutcome(st, 21) == Ok(true)
  {
    var items := [PInt(0), PInt(1), PInt(2), PInt(3), PInt(4)];
    assert forall i | 0 <= i < |items| :: IsInt(items[i]);
    IndexListEntry(items);
    assert 1 in st.entries;
    VerifyIndexListsRaise(st, 21);
    IntendedIndexListsIff(st, 21);
    FirstFiveIndices();
    var idxs := st.entries[1];
    assert Listed(idxs) == Numbers(items);
    assert SomeListed(st.entries) by {
      assert Listed(idxs)[0] in Listed(idxs);
    }
    ListedBelowOne(1, idxs, 21.0);
  }

  /** The one index-list fragment of the tests, over atoms 0-4 of a 21-atom
      molecule: it is stored with kind 'atom_idxs', and verify raises as written
      where it returns True as intended. */
  lemma IndexListOfTheTests()
    ensures var idxs := PDict(map["atom_idxs" := PList([PInt(0), PInt(1), PInt(2), PInt(3), PInt(4)]), "strategy" := PStr("fix")]);
            var st := State(map[1 := idxs], [1], Some(AtomIdxs));
            && Build([(PInt(1), idxs)]) == Ok(st)
            && VerifyOutcome(st, 21) == Err(Incomparable)
            && IntendedVerifyOutcome(st, 21) == Ok(true)
  {
    var items := [PInt(0), PInt(1), PInt(2), PInt(3), PInt(4)];
    assert forall i | 0 <= i < |items| :: IsInt(items[i]);
    IndexListEntry(items);
    var idxs := PDict(map["atom_idxs" := PList(items), "strategy" := PStr("fix")]);
    BuildOne(1, idxs);
    IndexListVerdicts(State(map[1 := idxs], [1], Some(AtomIdxs)));
  }

  /** As intended, a list naming the index equal to the atom count, one past the
      last atom, is rejected, where the source's `<=` would let that index pass. */
  lemma IndexAtAtomCountRejected(nAtoms: nat)
    ensures var idxs := PDict(map["atom_idxs" := PList([PInt(nAtoms)]), "strategy" := PStr("fix")]);
            IntendedVerifyOutcome(State(map[1 := idxs], [1], Some(AtomIdxs)), nAtoms) == Err(AtomIndexTooLarge)
  {
    var items := [PInt(nAtoms)];
    assert IsInt(items[0]);
    IndexListEntry(items);
    var idxs := PDict(map["atom_idxs" := PList(items), "strategy" := PStr("fix")]);
    var st := State(map[1 := idxs], [1], Some(AtomIdxs));
    assert 1 in st.entries;
    IndexListColumn(st);
    var col := Column(st.entries, st.order, "atom_idxs").value;
    assert col == [PList(items)];
    assert col[..0] == [];
    assert Flatten(col) == [nAtoms as real];
  }

  /** The two block fragments of the tests form a valid collection of blocks. */
  lemma TestBlocksValid(st: State)
    requires st == State(map[1 := PDict(map["start" := PInt(0), "end" := PInt(4), "strategy" := PStr("fix")]),
                             2 := PDict(map["start" := PInt(5), "end" := PInt(9), "strategy" := PStr("relax")])],
                         [1, 2], Some(Block))
    ensures ValidState(st) && st.entries != map[]
    ensures forall k | k in st.entries :: HasBlockKeys(st.entries[k].fields)
  {
    assert 1 in st.entries && st.entries.Keys == {1, 2};
    assert HasBlockKeys(st.entries[1].fields) && HasBlockKeys(st.entries[2].fields);
    forall k | k in st.entries ensures HasBlockKeys(st.entries[k].fields) {
      assert k == 1 || k == 2;
    }
    assert WellFormedEntry(st.entries[1]) && WellFormedEntry(st.entries[2]);
    assert Distinct([1, 2]);
  }

  /** Over the two block fragments of the tests, whose largest end is 9, verify
      accepts exactly the molecules of at least 9 atoms. */
  lemma TestBlocksVerdict(st: State, nAtoms: nat)
    requires st == State(map[1 := PDict(map["start" := PInt(0), "end" := PInt(4), "strategy" := PStr("fix")]),
                             2 := PDict(map["start" := PInt(5), "end" := PInt(9), "strategy" := PStr("relax")])],
                         [1, 2], Some(Block))
    ensures VerifyOutcome(st, nAtoms) == if 9 <= nAtoms then Ok(true) else Err(AtomIndexTooLarge)
  {
    TestBlocksValid(st);
    VerifyBlocks(st, nAtoms);
    if 9 <= nAtoms {
      forall k | k in st.entries ensures NumberValue(st.entries[k].fields["end"]) <= nAtoms as real {
        assert k == 1 || k == 2;
      }
    } else {
      assert NumberValue(st.entries[2].fields["end"]) > nAtoms as real;
    }
  }

  /** The two block fragments of the tests, atoms 0-4 and 5-9: stored in order with
      kind 'block'; verify accepts a 21-atom molecule and rejects an 8-atom one. */
  lemma BlocksOfTheTests()
    ensures var b1 := PDict(map["start" := PInt(0), "end" := PInt(4), "strategy" := PStr("fix")]);
            var b2 := PDict(map["start" := PInt(5), "end" := PInt(9), "strategy" := PStr("relax")]);
            var st := State(map[1 := b1, 2 := b2], [1, 2], Some(Block));
            && Build([(PInt(1), b1), (PInt(2), b2)]) == Ok(st)
            && VerifyOutcome(st, 21) == Ok(true)
            && VerifyOutcome(st, 8) == Err(AtomIndexTooLarge)
  {
    var b1 := PDict(map["start" := PInt(0), "end" := PInt(4), "strategy" := PStr("fix")]);
    var b2 := PDict(map["start" := PInt(5), "end" := PInt(9), "strategy" := PStr("relax")]);
    assert HasBlockKeys(b1.fields) && HasBlockKeys(b2.fields);
    BuildTwo(1, b1, 2, b2);
    var st := State(map[1 := b1, 2 := b2], [1, 2], Some(Block));
    TestBlocksVerdict(st, 21);
    TestBlocksVerdict(st, 8);
  }

  // ---------------------------------------------------------------------------
  // The mutable mapping

  class FragmentConstraints {
    var entries: map<int, PyValue>
    var order: seq<int>
    var kind: Option<Kind>

    function Contents(): State
      reads this
    {
      State(entries, order, kind)
    }

    ghost predicate Valid()
      reads this
    {
      ValidState(Contents())
    }

    constructor ()
      ensures Valid() && Contents() == Empty
    {
      entries, order, kind := map[], [], None;
    }

    /** `FragmentConstraints(items)`: raises on the first invalid item. */
    static method FromItems(items: seq<(PyValue, PyValue)>) returns (r: Result<FragmentConstraints, PyError>)
      ensures Build(items).Err? ==> r == Err(Build(items).error)
      ensures Build(items).Ok? ==> r.Ok? && fresh(r.value) && r.value.Valid() && r.value.Contents() == Build(items).value
    {
      var fc := new FragmentConstraints();
      var err := fc.Update(items);
      if err.Some? {
        r := Err(err.value);
      } else {
        r := Ok(fc);
      }
    }

    /** `fc[key] = value`. */
    method Set(key: PyValue, value: PyValue) returns (err: Option<PyError>)
      requires Valid()
      modifies this
      ensures Valid()
      ensures (Contents(), err) == SetItem(old(Contents()), key, value)
    {
      SetItemKeepsValid(Contents(), key, value);
      if !value.PDict? {
        return Some(NotADict);
      }
      var f := value.fields;
      if HasBlockKeys(f) {
        kind := Some(Block);
        if !(IsInt(f["start"]) && IsInt(f["end"])) {
          return Some(BoundsNotIntegers);
        }
      } else if HasIndexKeys(f) {
        kind := Some(AtomIdxs);
        var e := AtomIdxsError(f["atom_idxs"]);
        if e.Some? {
          return e;
        }
      } else {
        return Some(MissingFragmentKeys);
      }
      if !f["strategy"].PStr? {
        return Some(StrategyNotString);
      }
      match IntOf(key) {
        case Err(e) =>
          return Some(e);
        case Ok(k) =>
          if k !in entries {
            order := order + [k];
          }
          entries := entries[k := value];
          return None;
      }
    }

    /** `fc[key]`. */
    function Get(key: PyValue): Result<PyValue, PyError>
      reads this
    {
      GetItem(Contents(), key)
    }

    /** `del fc[key]`. */
    method Delete(key: PyValue) returns (err: Option<PyError>)
      requires Valid()
      modifies this
      ensures Valid()
      ensures DelItem(old(Contents()), key).Ok? ==> err == None && Contents() == DelItem(old(Contents()), key).value
      ensures DelItem(old(Contents()), key).Err? ==> err == Some(DelItem(old(Contents()), key).error) && Contents() == old(Contents())
    {
      DelItemKeepsValid(Contents(), key);
      match DelItem(Contents(), key) {
        case Ok(st) =>
          entries, order := st.entries, st.order;
          err := None;
        case Err(e) =>
          err := Some(e);
      }
    }

    /** `len(fc)`. */
    function Len(): nat
      reads this
    {
      |entries|
    }

    /** `fc.clear()`: every entry is deleted; `kind` stays. */
    method Clear()
      modifies this
      ensures Valid() && Contents() == old(Contents()).(entries := map[], order := [])
    {
      entries, order := map[], [];
    }

    /** `fc.update(items)`: the items are set one by one; those before an item
        that raises stay set. */
    method Update(items: seq<(PyValue, PyValue)>) returns (err: Option<PyError>)
      requires Valid()
      modifies this
      ensures Valid()
      ensures (Contents(), err) == UpdateAll(old(Contents()), items)
    {
      var i := 0;
      while i < |items|
        invariant 0 <= i <= |items|
        invariant Valid()
        invariant UpdateAll(old(Contents()), items[..i]) == (Contents(), None)
      {
        assert items[..i + 1][..i] == items[..i];
        var e := Set(items[i].0, items[i].1);
        if e.Some? {
          UpdateAllStops(old(Contents()), items, i + 1);
          return e;
        }
        i := i + 1;
      }
      assert items[..i] == items;
      return None;
    }

    /** `fc.update(other)` for another FragmentConstraints. */
    method MergeFrom(other: FragmentConstraints)
      requires Valid() && other.Valid()
      modifies this
      ensures Valid()
      ensures Contents() == Merged(old(Contents()), old(other.Contents()))
    {
      MergeCorrect(Contents(), other.Contents());
      var err := Update(Items(other.entries, other.order));
    }

    /** `fc.copy()`: a deep copy sharing nothing with fc. */
    method Copy() returns (c: FragmentConstraints)
      requires Valid()
      ensures fresh(c) && c.Valid() && c.Contents() == Contents()
    {
      c := new FragmentConstraints();
      c.entries, c.order, c.kind := entries, order, kind;
    }
  }
}
