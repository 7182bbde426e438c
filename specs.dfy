/**
 * Stream specs and the part of a spec collection that the request algebra
 * relies on: the total ROI, the union of the ROIs of all spatial entries.
 */
module Specs {
  import opened Wrappers
  import opened Streams
  import opened Rois

  /** Which spec class an entry is: an ArraySpec or a GraphSpec. */
  datatype Kind = ArrayKind | GraphKind

  /**
   * The fields of an ArraySpec or GraphSpec the core reads or writes. A
   * nonspatial spec carries no meaningful position.
   */
  datatype Spec = Spec(
    kind: Kind,
    roi: Option<Roi>,
    voxelSize: Option<seq<int>>,
    dtype: Option<DType>,
    nonspatial: bool)

  /** The spec class that goes with a key family. */
  function KindOf(k: Key): Kind
    requires Supported(k)
  {
    if k.ArrayKey? then ArrayKind else GraphKind
  }

  /** An entry that takes part in the total ROI: spatial and with a ROI. */
  predicate Spatial(s: Spec) {
    !s.nonspatial && s.roi.Some?
  }

  /** Every key of the iteration order has an entry. */
  predicate Listed(order: seq<Key>, specs: map<Key, Spec>) {
    forall i :: 0 <= i < |order| ==> order[i] in specs
  }

  /** Every two spatial entries have ROIs of the same dimension. */
  predicate SameDims(order: seq<Key>, specs: map<Key, Spec>)
    requires Listed(order, specs)
  {
    forall i, j ::
      0 <= i < |order| && 0 <= j < |order| && Spatial(specs[order[i]]) && Spatial(specs[order[j]])
      ==> Dims(specs[order[i]].roi.value) == Dims(specs[order[j]].roi.value)
  }

  /**
   * `get_total_roi`: the union of the ROIs of the spatial entries, visited in
   * iteration order; `None` when there is no such entry.
   */
  function TotalRoi(order: seq<Key>, specs: map<Key, Spec>): (t: Result<Option<Roi>, Error>)
    requires Listed(order, specs)
  {
    if order == [] then Success(None)
    else
      var rest :- TotalRoi(order[..|order| - 1], specs);
      var s := specs[order[|order| - 1]];
      if !Spatial(s) then Success(rest)
      else match rest
        case None => Success(s.roi)
        case Some(t) =>
          var u :- Union(t, s.roi.value);
          Success(Some(u))
  }

  /** The total ROI is `None` exactly when no entry is spatial. */
  lemma {:induction false} TotalRoiNone(order: seq<Key>, specs: map<Key, Spec>)
    requires Listed(order, specs)
    ensures TotalRoi(order, specs) == Success(None) <==>
            forall i :: 0 <= i < |order| ==> !Spatial(specs[order[i]])
  {
    if order != [] {
      var init := order[..|order| - 1];
      TotalRoiNone(init, specs);
      assert forall i :: 0 <= i < |init| ==> init[i] == order[i];
    }
  }

  /** A defined total ROI contains the ROI of every spatial entry. */
  lemma {:induction false} TotalRoiCovers(order: seq<Key>, specs: map<Key, Spec>)
    requires Listed(order, specs)
    requires TotalRoi(order, specs).Success? && TotalRoi(order, specs).value.Some?
    ensures forall i :: 0 <= i < |order| && Spatial(specs[order[i]]) ==>
              Contains(TotalRoi(order, specs).value.value, specs[order[i]].roi.value)
  {
    var init := order[..|order| - 1];
    var last := specs[order[|order| - 1]];
    var t := TotalRoi(order, specs).value.value;
    assert forall i :: 0 <= i < |init| ==> init[i] == order[i];
    var rest := TotalRoi(init, specs).value;
    if rest.Some? {
      TotalRoiCovers(init, specs);
      if Spatial(last) {
        forall i | 0 <= i < |init| && Spatial(specs[order[i]])
          ensures Contains(t, specs[order[i]].roi.value)
        {
          ContainsTransitive(t, rest.value, specs[order[i]].roi.value);
        }
      }
    } else {
      TotalRoiNone(init, specs);
    }
  }

  /**
   * A defined total ROI lies within any ROI that contains every spatial
   * entry's ROI: with `TotalRoiCovers`, it is the smallest box covering the
   * spatial ROIs, whatever the order they are visited in.
   */
  lemma {:induction false} TotalRoiLeast(order: seq<Key>, specs: map<Key, Spec>, c: Roi)
    requires Listed(order, specs)
    requires TotalRoi(order, specs).Success? && TotalRoi(order, specs).value.Some?
    requires forall i :: 0 <= i < |order| && Spatial(specs[order[i]]) ==>
               Contains(c, specs[order[i]].roi.value)
    ensures Contains(c, TotalRoi(order, specs).value.value)
  {
    var init := order[..|order| - 1];
    var last := specs[order[|order| - 1]];
    assert forall i :: 0 <= i < |init| ==> init[i] == order[i];
    var rest := TotalRoi(init, specs).value;
    if rest.Some? {
      TotalRoiLeast(init, specs, c);
      if Spatial(last) {
        UnionLeast(rest.value, last.roi.value, c);
      }
    }
  }

  /** The total ROI is defined exactly when the spatial ROIs agree in dimension. */
  lemma {:induction false} TotalRoiDefined(order: seq<Key>, specs: map<Key, Spec>)
    requires Listed(order, specs)
    ensures TotalRoi(order, specs).Success? <==> SameDims(order, specs)
  {
    if order != [] {
      var init := order[..|order| - 1];
      var n := |order| - 1;
      assert forall i :: 0 <= i < |init| ==> init[i] == order[i];
      TotalRoiDefined(init, specs);
      var whole := TotalRoi(order, specs);
      if whole.Success? && whole.value.Some? {
        TotalRoiCovers(order, specs);
      } else if whole.Success? {
        TotalRoiNone(order, specs);
      } else {
        assert SameDims(order, specs) ==> SameDims(init, specs);
        var rest := TotalRoi(init, specs);
        if rest.Success? && rest.value.Some? {
          TotalRoiCovers(init, specs);
          TotalRoiNone(init, specs);
        }
      }
    }
  }

  /**
   * When every spatial ROI has centre `c`, the total ROI is defined and, if
   * there is one, has centre `c` too.
   */
  lemma {:induction false} TotalRoiConcentric(order: seq<Key>, specs: map<Key, Spec>, c: seq<int>)
    requires Listed(order, specs)
    requires forall i :: 0 <= i < |order| && Spatial(specs[order[i]]) ==>
               Center(specs[order[i]].roi.value) == c
    ensures TotalRoi(order, specs).Success?
    ensures TotalRoi(order, specs).value.Some? ==> Center(TotalRoi(order, specs).value.value) == c
  {
    if order != [] {
      var init := order[..|order| - 1];
      assert forall i :: 0 <= i < |init| ==> init[i] == order[i];
      TotalRoiConcentric(init, specs, c);
      var rest := TotalRoi(init, specs).value;
      var last := specs[order[|order| - 1]];
      if rest.Some? && Spatial(last) {
        UnionConcentric(rest.value, last.roi.value);
      }
    }
  }
}
