/**
 * BatchRequest: a collection of array and graph specs forming a request,
 * with `add` (insert a zero-offset ROI, then centre all ROIs on the total
 * ROI's centre), `copy` and `merge`.
 */
module BatchRequests {
  import opened Wrappers
  import opened Streams
  import opened Rois
  import opened Specs

  /**
   * The shape of a request: `order` lists every key once, in one insertion
   * order, which the model uses in place of gunpowder's arrays-then-graphs
   * order (see README, Left out), and every entry's spec class is the one
   * that goes with its key family.
   */
  predicate WellFormed(order: seq<Key>, specs: map<Key, Spec>) {
    && Listed(order, specs)
    && Distinct(order)
    && (forall k :: k in specs ==> k in order)
    && (forall k :: k in specs ==> Supported(k) && specs[k].kind == KindOf(k))
  }

  /** Inserting a new key at the end keeps a request well formed. */
  lemma AppendWellFormed(o: seq<Key>, m: map<Key, Spec>, key: Key, v: Spec)
    requires WellFormed(o, m) && key !in m
    requires Supported(key) && v.kind == KindOf(key)
    ensures WellFormed(o + [key], m[key := v])
  {
    assert key !in o;
    var o' := o + [key];
    assert forall i :: 0 <= i < |o| ==> o'[i] == o[i];
  }

  /** Replacing the spec of a present key keeps a request well formed. */
  lemma ReplaceWellFormed(o: seq<Key>, m: map<Key, Spec>, key: Key, v: Spec)
    requires WellFormed(o, m) && key in m && v.kind == m[key].kind
    ensures WellFormed(o, m[key := v])
  {
  }

  /** Taking a key out of both the order and the entries keeps a request well formed. */
  lemma RemoveWellFormed(o: seq<Key>, m: map<Key, Spec>, key: Key)
    requires WellFormed(o, m)
    ensures WellFormed(Without(o, key), m - {key})
  {
    var rest := Without(o, key);
    assert forall i :: 0 <= i < |rest| ==> rest[i] in rest;
  }

  /** No key occurs twice. */
  predicate Distinct(o: seq<Key>) {
    forall i, j :: 0 <= i < j < |o| ==> o[i] != o[j]
  }

  /** The order of `o` with `key` taken out. */
  function Without(o: seq<Key>, key: Key): (r: seq<Key>)
    ensures forall k :: k in r <==> k in o && k != key
    ensures Distinct(o) ==> Distinct(r)
  {
    if o == [] then []
    else
      assert Distinct(o) ==> Distinct(o[..|o| - 1]) && o[|o| - 1] !in o[..|o| - 1];
      Without(o[..|o| - 1], key) + (if o[|o| - 1] == key then [] else [o[|o| - 1]])
  }

  /** The keys of `o` that are not in `present`, in the order of `o`. */
  function NewKeys(o: seq<Key>, present: set<Key>): (r: seq<Key>)
    ensures forall k :: k in r <==> k in o && k !in present
    ensures Distinct(o) ==> Distinct(r)
  {
    if o == [] then []
    else
      assert Distinct(o) ==> Distinct(o[..|o| - 1]) && o[|o| - 1] !in o[..|o| - 1];
      NewKeys(o[..|o| - 1], present) + (if o[|o| - 1] in present then [] else [o[|o| - 1]])
  }

  /**
   * The spec `add(key, shape, voxel_size)` inserts: an ArraySpec or GraphSpec
   * with a zero-offset ROI of the given shape, the voxel size only when one is
   * given, and every other field at its default.
   */
  function Requested(key: Key, shape: seq<int>, voxelSize: Option<seq<int>>): Spec
    requires Supported(key)
  {
    Spec(KindOf(key), Some(AtOrigin(shape)), voxelSize, None, false)
  }

  /** The entry's ROI can be moved to centre `c`. */
  predicate Centrable(s: Spec, c: seq<int>) {
    s.roi.Some? && Dims(s.roi.value) == |c|
  }

  /**
   * What the centring loop raises at an entry it cannot move: a missing ROI
   * has no `shift`, and a ROI of another dimension cannot be subtracted from.
   */
  function CentreError(k: Key, s: Spec): Error {
    if s.roi.None? then MissingRoi(k) else DimensionMismatch
  }

  /** `after` is `before` with its ROI, if any, translated. */
  predicate Translated(before: Spec, after: Spec) {
    && after.(roi := before.roi) == before
    && after.roi.Some? == before.roi.Some?
    && (before.roi.Some? ==> after.roi.value.shape == before.roi.value.shape)
  }

  /** The entry with its ROI re-centred on `c`. */
  function MoveTo(s: Spec, c: seq<int>): (r: Spec)
    requires Centrable(s, c)
    ensures r.roi.Some? && Translated(s, r) && Center(r.roi.value) == c
  {
    s.(roi := Some(Recentre(s.roi.value, c)))
  }

  /**
   * Every entry with its ROI re-centred on `c`: centring only translates, so
   * keys, shapes and all other fields stay as they were.
   */
  function Recentred(specs: map<Key, Spec>, c: seq<int>): (r: map<Key, Spec>)
    requires forall k :: k in specs ==> Centrable(specs[k], c)
    ensures r.Keys == specs.Keys
    ensures forall k :: k in r ==>
              r[k].roi.Some? && Translated(specs[k], r[k]) && Center(r[k].roi.value) == c
  {
    map k | k in specs :: MoveTo(specs[k], c)
  }

  /**
   * The centring invariant: the total ROI is defined and every entry has a
   * ROI whose centre is the total ROI's centre.
   */
  predicate Centred(order: seq<Key>, specs: map<Key, Spec>)
    requires Listed(order, specs)
  {
    var t := TotalRoi(order, specs);
    && t.Success? && t.value.Some?
    && forall k :: k in specs ==>
         specs[k].roi.Some? && Center(specs[k].roi.value) == Center(t.value.value)
  }

  /**
   * What `__center_rois` does to the entries `before`, raising `res` and
   * leaving `after`: nothing when the total ROI is undefined or `None`;
   * otherwise every ROI is moved to the total ROI's centre, and the loop
   * raises at the first entry it cannot move, having translated some of the
   * others.
   */
  ghost predicate CentringDone(order: seq<Key>, before: map<Key, Spec>, res: Outcome<Error>,
                               after: map<Key, Spec>)
    requires Listed(order, before)
  {
    match TotalRoi(order, before)
    case Failure(e) => res == Fail(e) && after == before
    case Success(None) => res == Pass && after == before
    case Success(Some(t)) =>
      var c := Center(t);
      && (res.Pass? <==> forall k :: k in before ==> Centrable(before[k], c))
      && (res.Pass? ==> after == Recentred(before, c))
      && (res.Fail? ==>
            && after.Keys == before.Keys
            && (forall k :: k in after ==> Translated(before[k], after[k]))
            && exists k :: k in before && !Centrable(before[k], c) && res.error == CentreError(k, before[k]))
  }

  /**
   * Re-centring entries that all have a ROI of the right dimension, at least
   * one of them spatial, establishes the centring invariant around `c`.
   */
  lemma RecentredCentred(order: seq<Key>, specs: map<Key, Spec>, c: seq<int>, key: Key)
    requires WellFormed(order, specs)
    requires forall k :: k in specs ==> Centrable(specs[k], c)
    requires key in specs && !specs[key].nonspatial
    ensures WellFormed(order, Recentred(specs, c))
    ensures Centred(order, Recentred(specs, c))
    ensures Center(TotalRoi(order, Recentred(specs, c)).value.value) == c
  {
    var r := Recentred(specs, c);
    assert Listed(order, r);
    TotalRoiConcentric(order, r, c);
    var i :| 0 <= i < |order| && order[i] == key;
    TotalRoiNone(order, r);
  }

  /**
   * A centring pass that succeeds on entries of which at least one is
   * spatial leaves them centred.
   */
  lemma CentringEstablishes(order: seq<Key>, before: map<Key, Spec>, after: map<Key, Spec>, key: Key)
    requires WellFormed(order, before)
    requires key in before && Spatial(before[key])
    requires CentringDone(order, before, Pass, after)
    ensures WellFormed(order, after) && Centred(order, after)
    ensures key in after && after[key].roi.Some?
    ensures after[key].roi.value.shape == before[key].roi.value.shape
    ensures after[key].(roi := before[key].roi) == before[key]
  {
    var i :| 0 <= i < |order| && order[i] == key;
    TotalRoiNone(order, before);
    var t := TotalRoi(order, before);
    if t.Success? {
      var c := Center(t.value.value);
      RecentredCentred(order, before, c, key);
    }
  }

  /**
   * What `add` promises once the new spec is in and the ROIs are centred:
   * the keys are those of `before`, and on success every entry is centred
   * and the new entry is `spec` with its ROI moved.
   */
  lemma AddEstablishes(order: seq<Key>, before: map<Key, Spec>, res: Outcome<Error>,
                       after: map<Key, Spec>, key: Key, spec: Spec)
    requires WellFormed(order, before)
    requires key in before && before[key] == spec && Spatial(spec)
    requires CentringDone(order, before, res, after)
    ensures after.Keys == before.Keys
    ensures res.Pass? ==>
              && Centred(order, after)
              && after[key].roi.Some? && after[key].roi.value.shape == spec.roi.value.shape
              && after[key].(roi := spec.roi) == spec
  {
    if res.Pass? {
      CentringEstablishes(order, before, after, key);
    }
  }

  /** Moving a ROI to the centre it already has leaves it where it is. */
  lemma RecentreInPlace(r: Roi)
    ensures Recentre(r, Center(r)) == r
  {
    var s := Recentre(r, Center(r));
    assert s.offset == r.offset;
  }

  /** Centring a centred request passes and changes nothing. */
  lemma CentringIdempotent(order: seq<Key>, specs: map<Key, Spec>)
    requires WellFormed(order, specs) && Centred(order, specs)
    ensures CentringDone(order, specs, Pass, specs)
  {
    var c := Center(TotalRoi(order, specs).value.value);
    forall k | k in specs ensures Recentre(specs[k].roi.value, c) == specs[k].roi.value {
      RecentreInPlace(specs[k].roi.value);
    }
    assert Recentred(specs, c) == specs;
  }

  /**
   * The per-key rule of `merge` for a key in both requests: a nonspatial
   * entry is overwritten by an incoming ArraySpec; otherwise the entry keeps
   * its fields and takes the union of both ROIs. An entry without ROI cannot
   * be united with anything; an incoming spec without ROI leaves the entry's
   * ROI as it is.
   */
  function MergeEntry(key: Key, existing: Spec, incoming: Spec): (r: Result<Spec, Error>)
    ensures r.Success? ==> r.value == incoming || r.value.(roi := existing.roi) == existing
  {
    if incoming.kind == ArrayKind && existing.nonspatial then Success(incoming)
    else if existing.roi.None? then Failure(MissingRoi(key))
    else if incoming.roi.None? then Success(existing)
    else
      var u :- Union(existing.roi.value, incoming.roi.value);
      Success(existing.(roi := Some(u)))
  }

  /**
   * The per-key rule of `merge`: an incoming ArraySpec overwrites a
   * nonspatial entry; otherwise an entry without ROI fails, an incoming spec
   * without ROI leaves the entry alone, and two ROIs are united, failing
   * exactly when the union does.
   */
  lemma MergeEntryRule(key: Key, existing: Spec, incoming: Spec)
    ensures incoming.kind == ArrayKind && existing.nonspatial ==>
              MergeEntry(key, existing, incoming) == Success(incoming)
    ensures !(incoming.kind == ArrayKind && existing.nonspatial) && existing.roi.None? ==>
              MergeEntry(key, existing, incoming) == Failure(MissingRoi(key))
    ensures !(incoming.kind == ArrayKind && existing.nonspatial) && existing.roi.Some? && incoming.roi.None? ==>
              MergeEntry(key, existing, incoming) == Success(existing)
    ensures !(incoming.kind == ArrayKind && existing.nonspatial) && existing.roi.Some? && incoming.roi.Some? ==>
              var u := Union(existing.roi.value, incoming.roi.value);
              MergeEntry(key, existing, incoming) ==
                (if u.Success? then Success(existing.(roi := Some(u.value))) else Failure(u.error))
  {
  }

  /**
   * Outside the overwrite case a merged entry is the existing one with a ROI
   * that contains both given ROIs.
   */
  lemma MergeEntryCovers(key: Key, existing: Spec, incoming: Spec)
    requires !(incoming.kind == ArrayKind && existing.nonspatial)
    requires MergeEntry(key, existing, incoming).Success?
    ensures existing.roi.Some?
    ensures var m := MergeEntry(key, existing, incoming).value;
      && m.(roi := existing.roi) == existing
      && m.roi.Some? && Contains(m.roi.value, existing.roi.value)
      && (incoming.roi.Some? ==> Contains(m.roi.value, incoming.roi.value))
  {
  }

  /** Merging a spec with itself changes nothing, unless it has no ROI to unite. */
  lemma MergeEntrySelf(key: Key, s: Spec)
    ensures MergeEntry(key, s, s) ==
      if s.kind == ArrayKind && s.nonspatial then Success(s)
      else if s.roi.None? then Failure(MissingRoi(key))
      else Success(s)
  {
    if s.roi.Some? {
      UnionIdempotent(s.roi.value);
    }
  }

  class BatchRequest {
    var order: seq<Key>
    var specs: map<Key, Spec>

    ghost predicate Valid()
      reads this
    {
      WellFormed(order, specs)
    }

    /** An empty request. */
    constructor ()
      ensures Valid() && order == [] && specs == map[]
    {
      order := [];
      specs := map[];
    }

    /** `self[key] = spec`: a new key goes to the end, an existing one keeps its place. */
    method Put(key: Key, spec: Spec)
      requires Valid() && Supported(key) && spec.kind == KindOf(key)
      modifies this
      ensures Valid()
      ensures specs == old(specs)[key := spec]
      ensures order == if key in old(specs) then old(order) else old(order) + [key]
    {
      if key !in specs {
        order := order + [key];
      }
      specs := specs[key := spec];
    }

    /** `del self[key]`, which raises for a key that is not there. */
    method Remove(key: Key) returns (res: Outcome<Error>)
      requires Valid()
      modifies this
      ensures Valid()
      ensures res.Pass? <==> key in old(specs)
      ensures res.Fail? ==> res.error == MissingSpec(key)
      ensures specs == old(specs) - {key}
      ensures order == Without(old(order), key)
    {
      if key !in specs {
        WithoutAbsent(order, key);
        assert specs - {key} == specs;
        return Fail(MissingSpec(key));
      }
      RemoveWellFormed(order, specs, key);
      order := Without(order, key);
      specs := specs - {key};
      res := Pass;
    }

    /** `copy()`: an independent request with the same entries in the same order. */
    method Copy() returns (r: BatchRequest)
      requires Valid()
      ensures fresh(r) && r.Valid()
      ensures r.order == order && r.specs == specs
    {
      r := new BatchRequest();
      r.order := order;
      r.specs := specs;
    }

    /** `__center_rois`: move every entry's ROI so its centre is the total ROI's centre. */
    method CenterRois() returns (res: Outcome<Error>)
      requires Valid()
      modifies this`specs
      ensures Valid()
      ensures CentringDone(order, old(specs), res, specs)
    {
      var total := TotalRoi(order, specs);
      if total.Failure? {
        return Fail(total.error);
      }
      if total.value.None? {
        return Pass;
      }
      var moved;
      res, moved := MoveAllTo(order, specs, Center(total.value.value));
      specs := moved;
    }

    /**
     * `add(key, shape, voxel_size)`: insert the spec of `Requested`, replacing
     * any previous spec for `key`, then centre all ROIs. Keys of another
     * family are refused and leave the request as it was.
     */
    method Add(key: Key, shape: seq<int>, voxelSize: Option<seq<int>>) returns (res: Outcome<Error>)
      requires Valid()
      modifies this
      ensures Valid()
      ensures !Supported(key) ==>
                res == Fail(UnsupportedKey(key)) && order == old(order) && specs == old(specs)
      ensures Supported(key) ==>
                && order == (if key in old(specs) then old(order) else old(order) + [key])
                && specs.Keys == old(specs.Keys) + {key}
                && CentringDone(order, old(specs)[key := Requested(key, shape, voxelSize)], res, specs)
      ensures Supported(key) && res.Pass? ==>
                && specs[key].kind == KindOf(key) && !specs[key].nonspatial
                && specs[key].roi.Some? && specs[key].roi.value.shape == shape
                && specs[key].voxelSize == voxelSize && specs[key].dtype.None?
      ensures res.Pass? ==> Centred(order, specs)
    {
      if !Supported(key) {
        return Fail(UnsupportedKey(key));
      }
      var spec := Requested(key, shape, voxelSize);
      Put(key, spec);
      ghost var inserted := specs;
      res := CenterRois();
      AddEstablishes(order, inserted, res, specs, key, spec);
    }

    /**
     * `merge(request)`: a new request holding every entry of this one and of
     * `other`, combined by `MergeEntry` where both have a key. Neither input
     * changes, and nothing is re-centred.
     */
    method Merge(other: BatchRequest) returns (res: Result<BatchRequest, Error>)
      requires Valid() && other.Valid()
      ensures res.Success? <==> MergeDefined(specs, other.specs)
      ensures res.Failure? ==>
                exists k :: k in specs && k in other.specs &&
                  MergeEntry(k, specs[k], other.specs[k]) == Failure(res.error)
      ensures res.Success? ==>
                && fresh(res.value) && res.value.Valid()
                && res.value.order == order + NewKeys(other.order, specs.Keys)
                && IsMerge(specs, other.specs, res.value.specs)
    {
      var merged := MergeEntries(order, specs, other.order, other.specs);
      if merged.Failure? {
        return Failure(merged.error);
      }
      var r := new BatchRequest();
      r.order, r.specs := merged.value.0, merged.value.1;
      res := Success(r);
    }
  }

  /**
   * The loop of `__center_rois`: visit the entries in order and move each
   * one's ROI to centre `c`, raising at the first entry that cannot move.
   */
  method MoveAllTo(order: seq<Key>, before: map<Key, Spec>, c: seq<int>)
    returns (res: Outcome<Error>, after: map<Key, Spec>)
    requires WellFormed(order, before)
    ensures after.Keys == before.Keys
    ensures forall k :: k in after ==> Translated(before[k], after[k])
    ensures res.Pass? <==> forall k :: k in before ==> Centrable(before[k], c)
    ensures res.Pass? ==> after == Recentred(before, c)
    ensures res.Fail? ==>
              exists k :: k in before && !Centrable(before[k], c) && res.error == CentreError(k, before[k])
  {
    after := before;
    var i := 0;
    while i < |order|
      invariant 0 <= i <= |order|
      invariant MovedUpTo(order, before, after, c, i)
    {
      var k := order[i];
      var s := after[k];
      if !Centrable(s, c) {
        res := Fail(CentreError(k, s));
        MovedTranslated(order, before, after, c, i);
        return;
      }
      MoveStep(order, before, after, c, i);
      after := after[k := MoveTo(s, c)];
      i := i + 1;
    }
    MovedAll(order, before, after, c);
    res := Pass;
  }

  /**
   * After the centring loop has visited the first `i` keys of `order`: those
   * entries could be moved and were, and the others are untouched.
   */
  ghost predicate MovedUpTo(order: seq<Key>, before: map<Key, Spec>, after: map<Key, Spec>,
                            c: seq<int>, i: nat)
  {
    && i <= |order|
    && after.Keys == before.Keys
    && (forall j :: 0 <= j < |order| ==> order[j] in before)
    && (forall j :: 0 <= j < i ==> Centrable(before[order[j]], c) &&
                                    after[order[j]] == MoveTo(before[order[j]], c))
    && (forall j :: i <= j < |order| ==> after[order[j]] == before[order[j]])
  }

  /** Moving the entry at `i` keeps the loop's invariant. */
  lemma MoveStep(order: seq<Key>, before: map<Key, Spec>, after: map<Key, Spec>, c: seq<int>, i: nat)
    requires WellFormed(order, before) && i < |order|
    requires MovedUpTo(order, before, after, c, i)
    requires Centrable(after[order[i]], c)
    ensures MovedUpTo(order, before, after[order[i] := MoveTo(after[order[i]], c)], c, i + 1)
  {
    var k := order[i];
    assert forall j :: 0 <= j < |order| && j != i ==> order[j] != k;
  }

  /** Part-way through the loop, every entry is its old one translated. */
  lemma MovedTranslated(order: seq<Key>, before: map<Key, Spec>, after: map<Key, Spec>, c: seq<int>, i: nat)
    requires WellFormed(order, before) && i < |order|
    requires MovedUpTo(order, before, after, c, i)
    ensures forall k :: k in after ==> Translated(before[k], after[k])
    ensures after[order[i]] == before[order[i]]
  {
    forall k | k in after
      ensures Translated(before[k], after[k])
    {
      var j :| 0 <= j < |order| && order[j] == k;
      if j < i {
        assert after[k] == MoveTo(before[k], c);
      }
    }
  }

  /** A finished loop has re-centred every entry. */
  lemma MovedAll(order: seq<Key>, before: map<Key, Spec>, after: map<Key, Spec>, c: seq<int>)
    requires WellFormed(order, before)
    requires MovedUpTo(order, before, after, c, |order|)
    ensures forall k :: k in before ==> Centrable(before[k], c)
    ensures after == Recentred(before, c)
  {
    forall k | k in before
      ensures Centrable(before[k], c) && after[k] == MoveTo(before[k], c)
    {
      var j :| 0 <= j < |order| && order[j] == k;
    }
  }

  /** Every key the two requests share can be merged. */
  ghost predicate MergeDefined(a: map<Key, Spec>, b: map<Key, Spec>) {
    forall k :: k in a && k in b ==> MergeEntry(k, a[k], b[k]).Success?
  }

  /**
   * `m` is a merge of `a` and `b`: its keys are those of both; a key of only
   * one side keeps that side's spec; a shared key holds the `MergeEntry` of
   * the two specs.
   */
  ghost predicate IsMerge(a: map<Key, Spec>, b: map<Key, Spec>, m: map<Key, Spec>) {
    && m.Keys == a.Keys + b.Keys
    && (forall k :: k in a && k !in b ==> m[k] == a[k])
    && (forall k :: k !in a && k in b ==> m[k] == b[k])
    && (forall k :: k in a && k in b ==> MergeEntry(k, a[k], b[k]) == Success(m[k]))
  }

  /**
   * The loop of `merge`: start from a copy of the first request's entries and
   * visit the second request's entries in order, adding new keys at the end
   * and combining shared ones, raising at the first shared key that cannot
   * be combined.
   */
  method MergeEntries(order: seq<Key>, specs: map<Key, Spec>, theirOrder: seq<Key>, theirs: map<Key, Spec>)
    returns (res: Result<(seq<Key>, map<Key, Spec>), Error>)
    requires WellFormed(order, specs) && WellFormed(theirOrder, theirs)
    ensures res.Success? <==> MergeDefined(specs, theirs)
    ensures res.Failure? ==>
              exists k :: k in specs && k in theirs && MergeEntry(k, specs[k], theirs[k]) == Failure(res.error)
    ensures res.Success? ==>
              && WellFormed(res.value.0, res.value.1)
              && res.value.0 == order + NewKeys(theirOrder, specs.Keys)
              && IsMerge(specs, theirs, res.value.1)
  {
    var mergedOrder, merged := order, specs;
    var i := 0;
    MergeStart(order, specs, theirOrder, theirs);
    while i < |theirOrder|
      invariant 0 <= i <= |theirOrder|
      invariant WellFormed(mergedOrder, merged)
      invariant mergedOrder == order + NewKeys(theirOrder[..i], specs.Keys)
      invariant MergedOver(specs, theirs, theirOrder[..i], merged)
    {
      var step := MergeOne(order, specs, theirOrder, theirs, i, mergedOrder, merged);
      if step.Failure? {
        MergeFails(specs, theirs, theirOrder[i], step.error);
        return Failure(step.error);
      }
      mergedOrder, merged := step.value.0, step.value.1;
      i := i + 1;
    }
    FullPrefix(theirOrder);
    MergedOverAll(specs, theirs, theirOrder, merged);
    res := Success((mergedOrder, merged));
  }

  /**
   * One iteration of the merge loop: the key at `i` of the second request is
   * added at the end when it is new, otherwise its entry is combined with the
   * present one.
   */
  method MergeOne(order: seq<Key>, specs: map<Key, Spec>, theirOrder: seq<Key>, theirs: map<Key, Spec>,
                  i: nat, mergedOrder: seq<Key>, merged: map<Key, Spec>)
    returns (res: Result<(seq<Key>, map<Key, Spec>), Error>)
    requires WellFormed(theirOrder, theirs) && i < |theirOrder|
    requires WellFormed(mergedOrder, merged)
    requires mergedOrder == order + NewKeys(theirOrder[..i], specs.Keys)
    requires MergedOver(specs, theirs, theirOrder[..i], merged)
    ensures res.Failure? ==>
              && theirOrder[i] in specs && theirOrder[i] in theirs
              && MergeEntry(theirOrder[i], specs[theirOrder[i]], theirs[theirOrder[i]]) == Failure(res.error)
    ensures res.Success? ==>
              && WellFormed(res.value.0, res.value.1)
              && res.value.0 == order + NewKeys(theirOrder[..i + 1], specs.Keys)
              && MergedOver(specs, theirs, theirOrder[..i + 1], res.value.1)
  {
    var key := theirOrder[i];
    var spec := theirs[key];
    ghost var done := theirOrder[..i];
    PrefixSnoc(theirOrder, i);
    DistinctPrefix(theirOrder, i);
    OrderStep(order, done, specs.Keys, key);
    if key !in merged {
      MergeStep(specs, theirs, done, merged, key, spec);
      AppendWellFormed(mergedOrder, merged, key, spec);
      res := Success((mergedOrder + [key], merged[key := spec]));
    } else {
      var entry := MergeEntry(key, merged[key], spec);
      if entry.Failure? {
        return Failure(entry.error);
      }
      MergeStep(specs, theirs, done, merged, key, entry.value);
      ReplaceWellFormed(mergedOrder, merged, key, entry.value);
      res := Success((mergedOrder, merged[key := entry.value]));
    }
  }

  /** Before the merge loop, nothing of the second request has been visited. */
  lemma MergeStart(order: seq<Key>, specs: map<Key, Spec>, theirOrder: seq<Key>, theirs: map<Key, Spec>)
    ensures order == order + NewKeys(theirOrder[..0], specs.Keys)
    ensures MergedOver(specs, theirs, theirOrder[..0], specs)
  {
    assert theirOrder[..0] == [];
  }

  /** A shared key whose specs cannot be combined makes the merge undefined. */
  lemma MergeFails(a: map<Key, Spec>, b: map<Key, Spec>, k: Key, e: Error)
    requires k in a && k in b && MergeEntry(k, a[k], b[k]) == Failure(e)
    ensures !MergeDefined(a, b)
    ensures exists k :: k in a && k in b && MergeEntry(k, a[k], b[k]) == Failure(e)
  {
  }

  /** Once every key of `b` has been visited, the loop holds the merge of `a` and `b`. */
  lemma MergedOverAll(a: map<Key, Spec>, b: map<Key, Spec>, o: seq<Key>, m: map<Key, Spec>)
    requires forall k :: k in b ==> k in o
    requires MergedOver(a, b, o, m)
    ensures MergeDefined(a, b) && IsMerge(a, b, m)
  {
  }

  lemma DistinctPrefix(s: seq<Key>, i: nat)
    requires Distinct(s) && i < |s|
    ensures s[i] !in s[..i]
  {
  }

  /** The merged order grows by a key exactly when the key is new. */
  lemma OrderStep(order: seq<Key>, done: seq<Key>, present: set<Key>, key: Key)
    ensures order + NewKeys(done + [key], present) ==
            order + NewKeys(done, present) + (if key in present then [] else [key])
  {
    NewKeysSnoc(done, key, present);
    ConcatAssoc(order, NewKeys(done, present), if key in present then [] else [key]);
  }

  lemma ConcatAssoc(a: seq<Key>, b: seq<Key>, c: seq<Key>)
    ensures a + (b + c) == a + b + c
  {
  }

  /**
   * `m` is what the merge loop holds after visiting the keys `done` of `b`:
   * the entries of `a`, those of `b` for new keys, and `MergeEntry` results
   * for shared keys.
   */
  ghost predicate MergedOver(a: map<Key, Spec>, b: map<Key, Spec>, done: seq<Key>, m: map<Key, Spec>) {
    && (forall k :: k in done ==> k in b)
    && (forall k :: k in m <==> k in a || k in done)
    && (forall k :: k in a && k !in done ==> m[k] == a[k])
    && (forall k :: k !in a && k in done ==> m[k] == b[k])
    && (forall k :: k in a && k in done ==> MergeEntry(k, a[k], b[k]) == Success(m[k]))
  }

  /** One iteration of the merge loop. */
  lemma MergeStep(a: map<Key, Spec>, b: map<Key, Spec>, done: seq<Key>, m: map<Key, Spec>,
                  key: Key, v: Spec)
    requires MergedOver(a, b, done, m)
    requires key in b && key !in done
    requires key !in a ==> v == b[key]
    requires key in a ==> MergeEntry(key, a[key], b[key]) == Success(v)
    ensures MergedOver(a, b, done + [key], m[key := v])
  {
  }

  /** Visiting one more key extends the new keys by it exactly when it is new, so they keep the order of `o`. */
  lemma NewKeysSnoc(o: seq<Key>, key: Key, present: set<Key>)
    ensures NewKeys(o + [key], present) == NewKeys(o, present) + (if key in present then [] else [key])
  {
    assert (o + [key])[..|o|] == o;
  }

  lemma PrefixSnoc(s: seq<Key>, i: nat)
    requires i < |s|
    ensures s[..i + 1] == s[..i] + [s[i]]
  {
  }

  lemma WithoutAbsent(o: seq<Key>, key: Key)
    requires key !in o
    ensures Without(o, key) == o
  {
    if o != [] {
      WithoutAbsent(o[..|o| - 1], key);
      LastSplit(o);
    }
  }

  lemma FullPrefix(s: seq<Key>)
    ensures s[..|s|] == s
  {
  }

  lemma LastSplit(s: seq<Key>)
    requires s != []
    ensures s == s[..|s| - 1] + [s[|s| - 1]]
  {
  }
}
