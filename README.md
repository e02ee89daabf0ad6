# Constraints and fragments of autodE, in Dafny

This project models `autode/constraints.py`. That module holds the constraints a
calculation in autodE applies to a molecule:

- `Constraints` bundles three parts:
  - distance constraints, a mapping from a pair of atom indices to a distance;
  - Cartesian constraints, a list of atom indices fixed in space;
  - angular constraints, a mapping from three or four atom indices to an angle.
- `DistanceConstraints` and `AngleConstraints` are the two mutable mappings behind
  the distance and angular parts. Each checks a key and a value when it is set.
  The distance mapping stores its keys sorted, so (i, j) and (j, i) name one
  constraint. The angle mapping keeps each key as given.
- `Fragments` holds a `FragmentConstraints` mapping. It maps a fragment id (any
  value `int()` accepts) to a dict of one of two forms: a block of atoms
  (`start`, `end`, `strategy`) or a list of atoms (`atom_idxs`, `strategy`).
  `Fragments.verify` checks the fragments against the number of atoms in a
  molecule.

Modules, one per file:

| file | module | models |
|---|---|---|
| wrappers.dfy | `Wrappers` | `Option` and `Result` |
| py_values.dfy | `PyValues` | the Python values an entry can hold, the exceptions raised, `int()` and `str()` of an integer |
| atom_keys.dfy | `AtomKeys` | tuple keys, `set(key)` and `sorted(key)` |
| distance_constraints.dfy | `DistanceStore` | `DistanceConstraints` |
| angle_constraints.dfy | `AngleStore` | `AngleConstraints` |
| fragment_constraints.dfy | `FragmentStore` | `FragmentConstraints` and the specification of `Fragments.verify` |
| fragments.dfy | `FragmentSet` | `Fragments` |
| constraints.dfy | `ConstraintSet` | `Constraints` |

Each mapping is a class whose field is a Dafny `map`. The fragment mapping also
keeps its keys in insertion order and its `kind` attribute. Each method is proved
against a function that specifies the same operation on values:

- `SetItem` specifies `__setitem__`.
- `UpdateAll` specifies `MutableMapping.update` with a sequence of items.
- `Build` specifies the constructor that is called with a dict.

An exception is a `PyError` value: a `Result`, or an `Option<PyError>` returned
next to the new state. A key or value of the wrong shape is an input the model
accepts, and it yields the error the source raises. Distances and angles are
reals. A molecule is given to `verify` by its number of atoms.

## Model

| member | source | states |
|---|---|---|
| PyValues.Trunc | autode/constraints.py:370 | `int()` of a float truncates toward zero: the result is the nearest integer toward zero, within 1 of the float |
| PyValues.DigitChar | autode/constraints.py:370 | the character written for a decimal digit is a digit character with that value |
| PyValues.DigitsOf | autode/constraints.py:370 | the decimal text of a natural number is non-empty and made of digits |
| PyValues.DigitsRoundTrip | autode/constraints.py:370 | reading back the decimal digits written for n gives n |
| PyValues.ParseUnsigned | autode/constraints.py:370 | `int()` of a string of digits without a sign is the value of the digits |
| PyValues.ParseNegative | autode/constraints.py:370 | `int()` of a minus sign followed by digits is the negated value of the digits |
| PyValues.SignedDigitsParse | autode/constraints.py:370 | `int()` of digits, with or without a minus sign in front, is their value, negated or not |
| PyValues.ParseShowRoundTrip | autode/constraints.py:367-370 | `int(str(n)) == n` for every integer n, so the text of an id addresses the same fragment |
| PyValues.IntOfNormalises | autode/constraints.py:367-370 | `1`, `True`, `1.9`, `"1"` and `"+1"` all become id 1; `-0.5` becomes 0; `"1.5"`, `""` and `None` raise |
| PyValues.ParseInt | autode/constraints.py:370 | `int()` of a string: an optional sign and ASCII digits give their value, any other string raises ValueError; `ParseUnsigned`, `ParseNegative` and `ParseShowRoundTrip` prove it |
| PyValues.IntOf | autode/constraints.py:367-370 | `int()` of an entry key: an int as is, a bool as 0 or 1, a float truncated, a string parsed, anything else a TypeError; `IntOfNormalises` proves the cases |
| AtomKeys.Insert | autode/constraints.py:175-178 | inserting into a sorted key keeps it sorted and adds exactly that index |
| AtomKeys.InsertFront | autode/constraints.py:178 | an index no larger than the first of a sorted key goes in front, and the key stays sorted |
| AtomKeys.InsertBehind | autode/constraints.py:178 | an index larger than the first of a sorted key goes behind it, and the key stays sorted and holds exactly one more index |
| AtomKeys.HeadBelowRest | autode/constraints.py:178 | once an index above the head is inserted into the tail of a sorted key, no index of the result is below the head |
| AtomKeys.Sort | autode/constraints.py:175-178 | `sorted(key)` is ascending and a permutation of the key |
| AtomKeys.SortedUnique | autode/constraints.py:175-178 | two ascending sequences with the same elements are equal, so the sorted key is unique |
| AtomKeys.SortPermutation | autode/constraints.py:175-178 | any two orderings of the same indices give the same canonical key |
| AtomKeys.SortOfSorted | autode/constraints.py:175-178 | a key that is already sorted is its own canonical key |
| AtomKeys.SortTripleWithRepeat | autode/constraints.py:178 | `sorted((y, x, x))` is `(x, x, y)` when x < y |
| AtomKeys.PermutationKeepsAtoms | autode/constraints.py:191-192 | reordering a key changes neither its set of distinct indices nor whether any index is negative |
| AtomKeys.RestrictGrows | autode/constraints.py:145-152 | setting one more entry of the other store over the part merged so far gives the merge over one more key |
| DistanceStore.KeyTransform | autode/constraints.py:175-178 | the canonical key is sorted and holds exactly the key's indices, repeats included |
| DistanceStore.SetItem | autode/constraints.py:180-212 | `__setitem__` on values: a non-iterable key raises; a key without exactly two distinct indices is dropped; then a value <= 0 raises, then a negative index raises; otherwise the distance is stored under the canonical key. `SetItemRaises`, `SetItemKeepsValid` and `SetItemOrderInsensitive` state its properties |
| DistanceStore.GetItem | autode/constraints.py:163-164 | `__getitem__` on values: the entry under the canonical key, KeyError when there is none, TypeError for a key `sorted()` cannot take; `LookupOrderInsensitive` and `SwappedPairIsOneEntry` state its properties |
| DistanceStore.DelItem | autode/constraints.py:166-167 | `__delitem__` on values: the store without the canonical key, with the same errors as `GetItem`; `LookupOrderInsensitive` states its property |
| DistanceStore.UpdateAll | autode/constraints.py:159-161 | `update` on values: the items are set in order and the first exception stops it, keeping what was set before; `UpdateAllGrows` and `UpdateAllStops` state its properties |
| DistanceStore.Build | autode/constraints.py:159-161 | `DistanceConstraints(d)` on values: the store `UpdateAll` gives from empty, or its exception; `BuildValid` states its property |
| DistanceStore.SetItemRaises | autode/constraints.py:180-212 | `__setitem__` raises only ValueErrors. It raises exactly when the key is not iterable, or has two distinct indices and either a value <= 0 or a negative index. Any other key without exactly two distinct indices leaves the store unchanged, whatever the value |
| DistanceStore.DuplicatePairDropped | autode/constraints.py:196-201 | keys (2, 2) and (0, 1, 2) have a number of distinct indices other than 2 and are dropped without an error |
| DistanceStore.RepeatedIndexKeyStored | autode/constraints.py:191-212 | a key (y, x, x) has two distinct indices and is stored under the sorted triple (x, x, y), not under a pair |
| DistanceStore.SetItemKeepsValid | autode/constraints.py:180-212 | every stored key is sorted, has two distinct non-negative indices and a positive distance, and a set keeps this |
| DistanceStore.SetItemOrderInsensitive | autode/constraints.py:175-212 | setting a key and setting any reordering of it have the same outcome |
| DistanceStore.LookupOrderInsensitive | autode/constraints.py:163-178 | reading or deleting a key and any reordering of it have the same outcome, because both go through the sorted key |
| DistanceStore.SwappedPairIsOneEntry | autode/constraints.py:163-164 | after setting (i, j) to v and (j, i) to w, the store has one entry for the pair; both orders read w |
| DistanceStore.PairStored | autode/constraints.py:191-212 | a pair of two distinct non-negative indices with a positive distance is stored under its sorted key |
| DistanceStore.SetCanonical | autode/constraints.py:180-212 | re-setting a stored entry under its own key stores exactly that entry |
| DistanceStore.UpdateAllGrows | autode/constraints.py:159-161 | an update never removes an entry and never stores an invalid one, even when it raises part-way |
| DistanceStore.BuildValid | autode/constraints.py:159-161 | a store built from a dict holds only valid entries |
| DistanceStore.UpdateAllStops | autode/constraints.py:159-161 | once an item raises, the items after it are not looked at |
| DistanceStore.DistanceConstraints.constructor | autode/constraints.py:159-161 | a new mapping is empty |
| DistanceStore.DistanceConstraints.FromItems | autode/constraints.py:159-161 | the constructor raises the first item's error, or gives a fresh mapping holding exactly `Build(items)` |
| DistanceStore.DistanceConstraints.Set | autode/constraints.py:180-212 | `d[key] = value` gives the store `SetItem` specifies; when it raises, the store is unchanged |
| DistanceStore.DistanceConstraints.Get | autode/constraints.py:163-164 | `d[key]` reads the store as `GetItem` specifies |
| DistanceStore.DistanceConstraints.Delete | autode/constraints.py:166-167 | `del d[key]` removes the canonical key, or raises KeyError and leaves the store unchanged |
| DistanceStore.DistanceConstraints.Clear | autode/constraints.py:64-65 | `clear()` empties the store in place |
| DistanceStore.DistanceConstraints.Len | autode/constraints.py:172-173 | `len(d)` is the number of stored keys |
| DistanceStore.DistanceConstraints.Update | autode/constraints.py:159-161 | the loop that sets the items one by one ends in the state and error `UpdateAll` specifies |
| DistanceStore.DistanceConstraints.MergeFrom | autode/constraints.py:146 | updating from another mapping gives the union, where the other mapping's entries win |
| DistanceStore.DistanceConstraints.Copy | autode/constraints.py:214-215 | the copy is a fresh mapping with the same entries |
| DistanceStore.CopyIsIndependent | autode/constraints.py:214-215 | setting an entry in a copy leaves the original unchanged |
| AngleStore.SetItemOutcome | autode/constraints.py:239-267 | `__setitem__` raises only ValueErrors. It raises exactly for a non-iterable key, or a key of 3 or 4 distinct indices with a negative one. It stores such a key with any value, as given; other arities are dropped |
| AngleStore.SetItem | autode/constraints.py:239-267 | `__setitem__` on values: a non-iterable key raises; a key without 3 or 4 distinct indices is dropped; a negative index raises; otherwise the angle is stored under the key as given. `SetItemOutcome` and `WrongArityDropped` state its properties |
| AngleStore.GetItem | autode/constraints.py:222-223 | `__getitem__` on values: the entry under the key as given, or KeyError; `ReversedKeyIsAnotherEntry` states its property |
| AngleStore.DelItem | autode/constraints.py:225-226 | `__delitem__` on values: the store without the key, or KeyError |
| AngleStore.UpdateAll | autode/constraints.py:218-220 | `update` on values: the items are set in order and the first exception stops it; `UpdateAllGrows` and `UpdateAllStops` state its properties |
| AngleStore.Build | autode/constraints.py:218-220 | `AngleConstraints(d)` on values: the store `UpdateAll` gives from empty, or its exception |
| AngleStore.WrongArityDropped | autode/constraints.py:254-259 | (0, 1), (0, 1, 2, 3, 4) and (0, 1, 1) are dropped |
| AngleStore.RepeatedIndexKeyStored | autode/constraints.py:249-267 | (0, 1, 2, 2) has three distinct indices and is stored as given, duplicate and all |
| AngleStore.ReversedKeyIsAnotherEntry | autode/constraints.py:234-237 | (i, j, k) and (k, j, i) are two entries, because the key is not reordered |
| AngleStore.UpdateAllGrows | autode/constraints.py:218-220 | an update never removes an entry and never stores an invalid one |
| AngleStore.UpdateAllStops | autode/constraints.py:218-220 | once an item raises, the items after it are not looked at |
| AngleStore.AngleConstraints.constructor | autode/constraints.py:218-220 | a new mapping is empty |
| AngleStore.AngleConstraints.FromItems | autode/constraints.py:218-220 | the constructor raises the first item's error, or gives a fresh mapping holding exactly `Build(items)` |
| AngleStore.AngleConstraints.Set | autode/constraints.py:239-267 | `a[key] = value` gives the store `SetItem` specifies; when it raises, the store is unchanged |
| AngleStore.AngleConstraints.Get | autode/constraints.py:222-223 | `a[key]` reads the store as `GetItem` specifies |
| AngleStore.AngleConstraints.Delete | autode/constraints.py:225-226 | `del a[key]` removes the key, or raises KeyError and leaves the store unchanged |
| AngleStore.AngleConstraints.Clear | autode/constraints.py:114-115 | `clear()` empties the store in place |
| AngleStore.AngleConstraints.Len | autode/constraints.py:231-232 | `len(a)` is the number of stored keys |
| AngleStore.AngleConstraints.Update | autode/constraints.py:218-220 | the loop that sets the items one by one ends in the state and error `UpdateAll` specifies |
| AngleStore.AngleConstraints.MergeFrom | autode/constraints.py:152 | updating from another mapping gives the union, where the other mapping's entries win |
| AngleStore.AngleConstraints.Copy | autode/constraints.py:269-270 | the copy is a fresh mapping with the same entries |
| AngleStore.CopyIsIndependent | autode/constraints.py:269-270 | setting an entry in a copy leaves the original unchanged |
| FragmentStore.RemoveKey | autode/constraints.py:358-359 | removing an id leaves exactly the other ids and keeps them distinct |
| FragmentStore.FormOf | autode/constraints.py:387-399 | the form of an entry dict: a block when it has `start`, `end` and `strategy`, else an index list when it has `atom_idxs` and `strategy`, else none; `BothFormsTakenAsBlock` states the overlap |
| FragmentStore.AtomIdxsError | autode/constraints.py:393-397 | the check on `atom_idxs`: a list passes when every element is an int (a bool counts), and an empty string or empty dict passes; otherwise a list or a non-empty string raises ValueError, a non-empty dict KeyError, and a value without a length TypeError |
| FragmentStore.SetItem | autode/constraints.py:372-404 | `__setitem__` on values: the new state (`kind` included) and the exception, if any; `SetItemStoresIff`, `KindFollowsOfferedEntry` and `SetItemKeepsValid` state its properties |
| FragmentStore.GetItem | autode/constraints.py:355-356 | `__getitem__` on values: the entry under `int(key)`, the error `int()` raises, or KeyError; `SameIdSameEntry` states its property |
| FragmentStore.DelItem | autode/constraints.py:358-359 | `__delitem__` on values: the state without `int(key)`, or the error; `DelItemKeepsValid` states its property |
| FragmentStore.UpdateAll | autode/constraints.py:351-353 | `update` on values: the items are set in order and the first exception stops it; `UpdateAllKeepsValid` and `UpdateAllStops` state its properties |
| FragmentStore.Build | autode/constraints.py:351-353 | `FragmentConstraints(d)` on values: the state `UpdateAll` gives from empty, or its exception; `BuildKindIsLastForm`, `BuildOne` and `BuildTwo` state its properties |
| FragmentStore.Merged | autode/constraints.py:325 | `f.update(other)` on values; `MergeCorrect` states its property |
| FragmentStore.Items | autode/constraints.py:361-362 | iterating a mapping yields, at each position, the id at that position of the insertion order paired with its entry |
| FragmentStore.SetItemStoresIff | autode/constraints.py:372-404 | `__setitem__` stores exactly when the value is a well-formed entry and `int(key)` succeeds. It then stores the value under `int(key)`; otherwise no entry changes |
| FragmentStore.SetWellFormed | autode/constraints.py:372-404 | a well-formed entry is stored under `int(key)`, and `kind` becomes its form |
| FragmentStore.BothFormsTakenAsBlock | autode/constraints.py:387-394 | a dict with the block keys and `atom_idxs` is a block; its `atom_idxs` is not checked |
| FragmentStore.KindFollowsOfferedEntry | autode/constraints.py:384-399 | `kind` becomes the form of any dict with a recognised form, even if it then raises; other values change nothing |
| FragmentStore.FailedBlockStillSetsKind | autode/constraints.py:387-391 | a block with a float `start` raises, yet `kind` is already "block" |
| FragmentStore.MissingStrategyRaises | autode/constraints.py:384-399 | a block or index list without `strategy`, or a value that is not a dict, raises and changes nothing |
| FragmentStore.SameIdSameEntry | autode/constraints.py:355-356 | two keys with the same `int()` set and read the same entry |
| FragmentStore.SetItemKeepsValid | autode/constraints.py:372-404 | a set keeps the ids distinct and in step with the entries, every entry well-formed, and `kind` set when there are entries |
| FragmentStore.PutKeepsValid | autode/constraints.py:404 | storing a well-formed entry under an id keeps the ids distinct and in step with the entries |
| FragmentStore.DelItemKeepsValid | autode/constraints.py:358-359 | a deletion keeps the same invariant |
| FragmentStore.UpdateAllKeepsValid | autode/constraints.py:351-353 | an update keeps the invariant, even when it raises part-way |
| FragmentStore.UpdateAllStops | autode/constraints.py:351-353 | once an item raises, the items after it are not looked at |
| FragmentStore.BuildKindIsLastForm | autode/constraints.py:351-353 | a mapping built from a dict has the `kind` of the last item's form |
| FragmentStore.BuildOne | autode/constraints.py:351-353 | a dict of one well-formed entry under an int id builds to that entry alone, with its form as `kind` |
| FragmentStore.BuildTwo | autode/constraints.py:351-353 | a dict of two well-formed entries under distinct int ids builds to both in order, with the second one's form as `kind` |
| FragmentStore.LastIsNew | autode/constraints.py:361-362 | in a list of distinct ids, the last one does not occur earlier |
| FragmentStore.RestrictSnoc | autode/constraints.py:361-362 | restricting to one more id adds that id's entry |
| FragmentStore.MergeKeysStepEntries | autode/constraints.py:325 | merging one more entry sets exactly that entry |
| FragmentStore.MergeKeysStepOrder | autode/constraints.py:325 | merging one more entry appends its id only if it is new |
| FragmentStore.MergeKeysStep | autode/constraints.py:325 | one step of the merge sets the entry, appends a new id and takes that entry's form as `kind` |
| FragmentStore.MergeKeysCorrectStep | autode/constraints.py:325 | once the items before the last gave the merge of all ids but the last, setting the last id's well-formed entry gives the merge of all of them |
| FragmentStore.MergeKeysCorrect | autode/constraints.py:325 | setting the items of another mapping one by one never raises and gives the merge by induction over its ids |
| FragmentStore.MergedKindFollowsArgument | autode/constraints.py:325 | blocks 1 and 2 updated from an index list under id 1 keep the order [1, 2] with block 2 last, yet `kind` becomes the index-list form |
| FragmentStore.RestrictAll | autode/constraints.py:361-362 | restricting to every listed id gives all the entries |
| FragmentStore.MergeCorrect | autode/constraints.py:325 | updating one valid mapping from another never raises, keeps the invariant, and the entries become the union, where the other's entries win |
| FragmentStore.Column | autode/constraints.py:336-339 | the list of a field over the fragments fails only with KeyError |
| FragmentStore.MaxOfAtMost | autode/constraints.py:337-342 | the maximum is at most n exactly when every element is |
| FragmentStore.MaxOfBelow | autode/constraints.py:342 | the maximum is below n exactly when every element is |
| FragmentStore.VerifyOutcome | autode/constraints.py:332-348 | `verify` on values: True or the exception raised; `VerifyNeverFalse`, `VerifyBlocks`, `VerifyMixedKinds` and `VerifyIndexListsRaise` state its properties |
| FragmentStore.ColumnOfPresent | autode/constraints.py:337-339 | when every fragment has the field, the column has one value per fragment, in order |
| FragmentStore.ColumnOfAbsent | autode/constraints.py:337-339 | when some fragment lacks the field, building the column raises KeyError |
| FragmentStore.ColumnStops | autode/constraints.py:337-339 | once a fragment lacks the field, the later fragments are not looked at |
| FragmentStore.VerifyNeverFalse | autode/constraints.py:332-348 | `verify` never returns False: it returns True or raises |
| FragmentStore.NonEmptyOrder | autode/constraints.py:361-365 | a mapping with entries has a non-empty list of ids |
| FragmentStore.BlockEnds | autode/constraints.py:336-337 | for blocks, the column of `end` values is the ends of the fragments in order |
| FragmentStore.VerifyBlocks | autode/constraints.py:332-348 | for blocks, `verify` returns True exactly when every `end` is at most the number of atoms. Otherwise it raises ValueError |
| FragmentStore.VerifyMixedKinds | autode/constraints.py:336-337 | when `kind` is block but an entry has no `end`, `verify` raises KeyError |
| FragmentStore.FlattenMembers | autode/constraints.py:338-339 | an index is in the flattened index lists exactly when it is in one of them |
| FragmentStore.IndexListColumn | autode/constraints.py:338-339 | for index lists, the column holds each fragment's list in order |
| FragmentStore.VerifyIndexListsRaise | autode/constraints.py:338-342 | as written, `verify` over index lists always raises: `max` of lists is a list, and a list does not compare with an int |
| FragmentStore.ListedAcross | autode/constraints.py:338-339 | the flattened column holds exactly the indices listed in the mapping |
| FragmentStore.ListedVerdicts | autode/constraints.py:338-342 | the flattened indices are non-empty and all below n exactly when the mapping lists some index and all of them are below n |
| FragmentStore.MaxBelow | autode/constraints.py:342 | a list has a maximum below n exactly when it is non-empty and all of its elements are below n |
| FragmentStore.IntendedVerifyOutcome | autode/constraints.py:332-348 | `verify` as evidently intended, on values: over index lists, the largest listed index must be below the number of atoms; otherwise as written |
| FragmentStore.IntendedOnIndexLists | autode/constraints.py:338-342 | the corrected check over index lists returns True exactly when the largest listed index is below the number of atoms |
| FragmentStore.IntendedIndexListsIff | autode/constraints.py:338-342 | the corrected check returns True exactly when some index is listed and every listed index is below the number of atoms |
| FragmentStore.IndexListEntry | autode/constraints.py:393-397 | a dict with an `atom_idxs` list of ints and a str `strategy` is a well-formed index-list entry, and a collection of it alone is valid |
| FragmentStore.IndexListVerdicts | autode/constraints.py:338-342 | on the index list 0-4 over 21 atoms, `verify` as written raises TypeError and the corrected check returns True |
| FragmentStore.IndexListOfTheTests | autode/constraints.py:338-342 | the fragment `{1: atom_idxs [0..4], strategy "fix"}` on 21 atoms raises as written, and the corrected check returns True |
| FragmentStore.IndexAtAtomCountRejected | autode/constraints.py:342 | as corrected, a list naming the index equal to the number of atoms is rejected, where `<=` would pass it |
| FragmentStore.TestBlocksValid | autode/constraints.py:387-404 | the blocks 0-4 and 5-9 make a valid collection of blocks |
| FragmentStore.TestBlocksVerdict | autode/constraints.py:336-348 | over the blocks 0-4 and 5-9, `verify` accepts exactly the molecules of at least 9 atoms, since the largest end is compared with `<=` |
| FragmentStore.BlocksOfTheTests | autode/constraints.py:336-348 | blocks 0-4 and 5-9 verify on 21 atoms and raise on 8 |
| FragmentStore.FragmentConstraints.constructor | autode/constraints.py:351-353 | a new mapping is empty and has no `kind` |
| FragmentStore.FragmentConstraints.FromItems | autode/constraints.py:351-353 | the constructor raises the first item's error, or gives a fresh mapping holding exactly `Build(items)` |
| FragmentStore.FragmentConstraints.Set | autode/constraints.py:372-404 | `f[key] = value` leaves the state and error `SetItem` specifies, including `kind` set before a later check raises |
| FragmentStore.FragmentConstraints.Get | autode/constraints.py:355-356 | `f[key]` reads the mapping as `GetItem` specifies |
| FragmentStore.FragmentConstraints.Delete | autode/constraints.py:358-359 | `del f[key]` removes `int(key)`, or raises and changes nothing |
| FragmentStore.FragmentConstraints.Clear | autode/constraints.py:312-313 | `clear()` removes every entry and keeps `kind` |
| FragmentStore.FragmentConstraints.Len | autode/constraints.py:364-365 | `len(f)` is the number of entries |
| FragmentStore.FragmentConstraints.Update | autode/constraints.py:351-353 | the loop that sets the items one by one ends in the state and error `UpdateAll` specifies |
| FragmentStore.FragmentConstraints.MergeFrom | autode/constraints.py:325 | updating from another mapping gives `Merged`, whose entries are the union |
| FragmentStore.FragmentConstraints.Copy | autode/constraints.py:406-407 | the copy is a fresh mapping with the same state |
| FragmentSet.Fragments.constructor | autode/constraints.py:282 | a new holder owns a fresh, empty mapping |
| FragmentSet.Fragments.New | autode/constraints.py:273-283 | `Fragments(d)` raises the error building d raises, or holds the merge of d into an empty mapping |
| FragmentSet.Fragments.Store | autode/constraints.py:298-300 | the getter is None exactly when there are no fragments, else the mapping itself |
| FragmentSet.Fragments.SetFragmentConstraints | autode/constraints.py:302-315 | None clears the mapping in place and keeps `kind`; a dict replaces the mapping by a fresh one built from it, and the replaced mapping keeps its entries; a dict that raises changes nothing |
| FragmentSet.Fragments.Update | autode/constraints.py:317-327 | None changes nothing; a dict that raises changes nothing; otherwise it is merged into the mapping |
| FragmentSet.Fragments.Copy | autode/constraints.py:329-330 | the copy owns a fresh mapping with the same state |
| FragmentSet.Fragments.ColumnOf | autode/constraints.py:337-339 | the loop builds exactly the list of a field over the fragments in order, one value per fragment, or raises KeyError at the first fragment without the field |
| FragmentSet.Fragments.Verify | autode/constraints.py:332-348 | the method gives exactly `VerifyOutcome`: True, or the exception the source raises, as the lemmas about `VerifyOutcome` state |
| FragmentSet.Fragments.VerifyCorrected | autode/constraints.py:332-348 | the corrected check gives exactly `IntendedVerifyOutcome`: over index lists, the largest index listed in any fragment must be below the number of atoms |
| FragmentSet.Maximum | autode/constraints.py:337-339 | `max` of a non-empty list is one of its elements and no element exceeds it |
| FragmentSet.CopyIsIndependent | autode/constraints.py:329-330 | clearing a copy's fragments leaves the original unchanged |
| ConstraintSet.UpdateParts | autode/constraints.py:129-153 | `update` on values: the distance dict is built and merged, then the Cartesian indices appended, then the angular dict built and merged, stopping at the first exception; `UpdateMerges`, `DistanceFailureChangesNothing`, `AngularFailureKeepsEarlierParts` and `UpdateKeepsValid` state its properties |
| ConstraintSet.CartesianView | autode/constraints.py:74-77 | the `cartesian` getter on values: None for no indices, else the listed indices once each; `CartesianViewBounds` states its property |
| ConstraintSet.UpdateNothing | autode/constraints.py:145-153 | `update()` with nothing to add changes nothing |
| ConstraintSet.UpdateMerges | autode/constraints.py:145-153 | a successful update merges the distance and angle dicts into their stores, with new entries winning, and appends the Cartesian indices |
| ConstraintSet.DistanceFailureChangesNothing | autode/constraints.py:145-146 | a distance dict that raises leaves every part unchanged |
| ConstraintSet.AngularFailureKeepsEarlierParts | autode/constraints.py:145-152 | an angular dict that raises leaves the angles unchanged, but the distances and Cartesian indices added before it stay |
| ConstraintSet.UpdateKeepsValid | autode/constraints.py:145-153 | every part stays valid after an update, whether it raises or not |
| ConstraintSet.DistinctAtMost | autode/constraints.py:74-77 | the distinct Cartesian indices number at most the indices listed |
| ConstraintSet.CartesianViewBounds | autode/constraints.py:74-77 | the getter is None exactly when no index is listed; otherwise it holds the listed indices, each once, and at most as many as listed |
| ConstraintSet.CartesianDeduplicates | autode/constraints.py:77 | [1, 1, 2] reads back as {1, 2} |
| ConstraintSet.Constraints.constructor | autode/constraints.py:24-27 | a new object has fresh, empty stores and no Cartesian indices |
| ConstraintSet.Constraints.New | autode/constraints.py:9-29 | `Constraints(d, c, a)` is an update of empty parts, raising what that update raises |
| ConstraintSet.Constraints.Distance | autode/constraints.py:50-52 | the getter is None exactly when `n_distance` is 0, else the store itself |
| ConstraintSet.Constraints.NDistance | autode/constraints.py:69-72 | `n_distance` is the number of entries of the distance store |
| ConstraintSet.Constraints.SetDistance | autode/constraints.py:54-67 | None clears the store in place; a dict replaces it by a fresh store built from it, and the replaced store keeps its entries; a dict that raises changes nothing; the other parts stay |
| ConstraintSet.Constraints.Cartesian | autode/constraints.py:74-77 | the `cartesian` getter reads the list as `CartesianView` specifies |
| ConstraintSet.Constraints.NCartesian | autode/constraints.py:93-96 | `n_cartesian` counts the listed indices, repeats included |
| ConstraintSet.Constraints.SetCartesian | autode/constraints.py:79-91 | None empties the list and a list replaces it; the stores stay |
| ConstraintSet.Constraints.Angular | autode/constraints.py:100-102 | the getter is None exactly when `n_angular` is 0, else the store itself |
| ConstraintSet.Constraints.NAngular | autode/constraints.py:119-122 | `n_angular` is the number of entries of the angle store |
| ConstraintSet.Constraints.SetAngular | autode/constraints.py:104-117 | as the distance setter, for the angle store |
| ConstraintSet.Constraints.Any | autode/constraints.py:124-127 | `any` holds exactly when some part has a constraint |
| ConstraintSet.Constraints.Update | autode/constraints.py:129-153 | updating in place, into the same store objects, leaves the parts and error `UpdateParts` specifies |
| ConstraintSet.Constraints.Copy | autode/constraints.py:155-156 | the copy has fresh stores with the same contents |
| ConstraintSet.CopyIsIndependent | autode/constraints.py:155-156 | clearing every part of a copy leaves the original unchanged |

## Left out

- `__str__` and `__repr__` of `Constraints` and `Fragments`, and the logger message for a dropped key: these only format text.
- `Distance` and `Angle` values with units: a distance is a real in Ångström and an angle a real in degrees. Floating-point rounding, NaN and infinities are not modelled.
- Distance and angle keys are tuples of integers. Keys with non-integer elements, and list or string keys (which `set()` would also accept), are not modelled.
- Setting a distance or angle with a non-numeric value, where `float(value)` would raise, is not modelled: values are reals.
- `int()` of a string with surrounding whitespace, underscores between digits, or non-ASCII Unicode decimal digits (such as Arabic-Indic digits) is not modelled. It is read as an error, while Python accepts it.
- Dict keys inside a fragment entry are strings. A non-string key, such as an `int` key 0 inside `atom_idxs` given as a dict, is not modelled.
- The iteration order of the distance and angle stores is not modelled, because a Dafny `map` has none. The fragment mapping keeps its ids in insertion order. `verify` does not depend on it, since the maximum of a column does not depend on its order. `update` from another mapping does: its `kind` ends as the form of the last entry in that order.
- ConstraintSet.CartesianView: the getter's list is modelled as a set, because the order of `list(set(...))` is unspecified.
- ConstraintSet.Constraints.SetCartesian: the `int(i)` conversion of each element is the identity, because indices are integers in the model.
- The getters return the live store objects, and the model keeps that: a store read through `distance`, `angular` or `fragment_constraints` is the object that a later `None` assignment clears in place, and a later dict assignment leaves with its old entries (`ConstraintSet.Constraints.SetDistance`). The caller's own dicts and lists are copied, never kept: the setters build new stores (autode/constraints.py:67, 117, 315) or a new list (autode/constraints.py:91), and `update` appends the elements (autode/constraints.py:149). The one sharing not modelled is that a fragment mapping stores the caller's entry dicts by reference, so a caller that later mutates such a dict changes the stored entry.
- `deepcopy` is modelled as a copy of the stored values into fresh objects.
- A molecule is given to `verify` by its number of atoms, because `len(m.atoms)` is all that is used.
- The other modules of autodE (NEB and CI-NEB, the GPU4PySCF wrapper, keywords, setup) are not part of this model.

Where the code and its documentation disagree, the model follows the code:

- An entry with both the block keys and `atom_idxs` is a block (`FragmentStore.BothFormsTakenAsBlock`).
- A block with `end` equal to the number of atoms passes `verify`, because the test is `<=` (`FragmentStore.VerifyBlocks`).
- A distance key (y, x, x) has two distinct indices and is stored under the sorted triple (`DistanceStore.RepeatedIndexKeyStored`).
- `Constraints.update` is not atomic: when the angular dict raises, the distances and Cartesian indices already merged stay (`ConstraintSet.AngularFailureKeepsEarlierParts`).
- `verify` on a `Fragments` without fragments raises AttributeError, because the getter returns None (`PyError.NoFragments`). A mapping whose `kind` was never assigned also raises AttributeError (`PyError.KindUnset`). The `else` branch of `verify` cannot be reached.
- After a merge, `kind` is the form of the last entry in the order of the mapping built from the argument. That need not be the merged mapping's last entry (`FragmentStore.MergedKindFollowsArgument`), nor the last item offered, since the ids 1 and "1" name one entry (`FragmentStore.MergeKeysStep`).

## Findings

| source | as written | input that shows it | evidently intended | confidence | as-written member | corrected member |
|---|---|---|---|---|---|---|
| autode/constraints.py:338-342 | for `kind == 'atom_idxs'`, `max` is taken over the fragments' index lists, which gives a list; `list <= int` then raises TypeError, so `verify` never succeeds for index lists | `Fragments({1: {"atom_idxs": [0, 1, 2, 3, 4], "strategy": "fix"}})` verified against a molecule of 21 atoms | the largest index over all the lists must lie below the number of atoms, since atom indices count from 0 | not executed | FragmentStore.VerifyIndexListsRaise, FragmentStore.IndexListOfTheTests | FragmentSet.Fragments.VerifyCorrected, FragmentStore.IntendedIndexListsIff |

`FragmentSet.Fragments.Verify` models the code as written.
`FragmentSet.Fragments.VerifyCorrected` is the corrected check, proved against
`FragmentStore.IntendedVerifyOutcome`. It agrees with the code on blocks and differs only for
index lists, where `FragmentStore.IntendedIndexListsIff` proves that it returns
True exactly when some index is listed and every listed index is below the
number of atoms. `FragmentStore.IndexAtAtomCountRejected` shows the boundary.
Block ends keep the source's `<=`, because nothing in this module says whether
`end` is inclusive.
