/**
 * BalanceLabels: a pipeline stage that derives a per-voxel loss weighting
 * (`scales`) from a binary label array and optional masks, so that positive
 * and negative voxels contribute equally to the loss. Arrays are flattened
 * to sequences of exact reals.
 */
module BalanceLabelsNode {
  import opened Wrappers
  import opened Streams
  import opened Specs
  import opened BatchRequests

  /** The number of voxels of an array with the given shape. */
  function Size(shape: seq<nat>): nat {
    if shape == [] then 1 else shape[0] * Size(shape[1..])
  }

  /** An array: its voxels in flat order, its shape and its spec. */
  datatype Volume = Volume(data: seq<real>, shape: seq<nat>, spec: Spec)

  predicate Shaped(v: Volume) {
    |v.data| == Size(v.shape)
  }

  /** The arrays of a batch, by key. */
  class Batch {
    var volumes: map<Key, Volume>

    ghost predicate Valid()
      reads this
    {
      forall k :: k in volumes ==> Shaped(volumes[k])
    }

    constructor (volumes: map<Key, Volume>)
      requires forall k :: k in volumes ==> Shaped(volumes[k])
      ensures Valid() && this.volumes == volumes
    {
      this.volumes := volumes;
    }
  }

  /** The `mask` argument of the stage: none, one key, or a collection of keys. */
  datatype MaskArg = NoMask | OneMask(key: Key) | MaskList(keys: seq<Key>)

  /** The clamp bounds of the positive fraction. */
  const MinFrac: real := 0.05
  const MaxFrac: real := 0.95

  /** `numpy.clip` with ordered bounds. */
  function Clip(x: real, lo: real, hi: real): (r: real)
    requires lo <= hi
    ensures lo <= r <= hi
    ensures lo <= x <= hi ==> r == x
  {
    if x < lo then lo else if hi < x then hi else x
  }

  /** `numpy.floor` on [0, 1], where it takes only the values 0 and 1. */
  function FloorUnit(y: real): (r: real)
    requires 0.0 <= y <= 1.0
    ensures r == y.Floor as real
  {
    if y == 1.0 then 1.0 else 0.0
  }

  /** A label binarised as `floor(clip(x + 0.5, 0, 1))`: 1 exactly from 0.5 up. */
  function Binarize(x: real): (b: real)
    ensures b == if x >= 0.5 then 1.0 else 0.0
  {
    FloorUnit(Clip(x + 0.5, 0.0, 1.0))
  }

  function Binarized(labels: seq<real>): (r: seq<real>)
    ensures |r| == |labels|
    ensures forall i :: 0 <= i < |r| ==> r[i] == Binarize(labels[i])
  {
    seq(|labels|, i requires 0 <= i < |labels| => Binarize(labels[i]))
  }

  /** Elementwise product. */
  function Times(a: seq<real>, b: seq<real>): (r: seq<real>)
    requires |a| == |b|
    ensures |r| == |a|
    ensures forall i :: 0 <= i < |r| ==> r[i] == a[i] * b[i]
  {
    seq(|a|, i requires 0 <= i < |a| => a[i] * b[i])
  }

  function Sum(s: seq<real>): real {
    if s == [] then 0.0 else s[0] + Sum(s[1..])
  }

  /** The product of the masks' values at voxel `i`, multiplied in mask order. */
  function ColumnProduct(masks: seq<seq<real>>, n: nat, i: nat): real
    requires forall j :: 0 <= j < |masks| ==> |masks[j]| == n
    requires i < n
  {
    if masks == [] then 1.0 else ColumnProduct(masks[..|masks| - 1], n, i) * masks[|masks| - 1][i]
  }

  /** The error scale after the mask loop: ones, multiplied by each mask in turn. */
  function MaskProduct(masks: seq<seq<real>>, n: nat): (r: seq<real>)
    requires forall j :: 0 <= j < |masks| ==> |masks[j]| == n
    ensures |r| == n
  {
    seq(n, i requires 0 <= i < n => ColumnProduct(masks, n, i))
  }

  /** The positive fraction before clamping: 0 when nothing is masked in. */
  function RawFracPos(numPos: real, maskedIn: real): real {
    if maskedIn > 0.0 then numPos / maskedIn else 0.0
  }

  /** The positive fraction, clamped to [0.05, 0.95]. */
  function FracPos(numPos: real, maskedIn: real): (f: real)
    ensures MinFrac <= f <= MaxFrac
    ensures maskedIn <= 0.0 ==> RawFracPos(numPos, maskedIn) == 0.0 && f == MinFrac
    ensures MinFrac <= RawFracPos(numPos, maskedIn) <= MaxFrac ==> f == RawFracPos(numPos, maskedIn)
  {
    Clip(RawFracPos(numPos, maskedIn), MinFrac, MaxFrac)
  }

  /** The class weight of positive voxels. */
  function WPos(f: real): real
    requires f != 0.0
  {
    1.0 / (2.0 * f)
  }

  /** The class weight of negative voxels, from `frac_neg = 1 - frac_pos`. */
  function WNeg(f: real): real
    requires f != 1.0
  {
    1.0 / (2.0 * (1.0 - f))
  }

  /** `(b >= 0.5) * w_pos + (b < 0.5) * w_neg` for one binarised label `b`. */
  function ClassWeight(b: real, wPos: real, wNeg: real): real {
    (if b >= 0.5 then 1.0 else 0.0) * wPos + (if b < 0.5 then 1.0 else 0.0) * wNeg
  }

  function ClassWeights(binary: seq<real>, wPos: real, wNeg: real): (r: seq<real>)
    ensures |r| == |binary|
    ensures forall i :: 0 <= i < |r| ==> r[i] == ClassWeight(binary[i], wPos, wNeg)
  {
    seq(|binary|, i requires 0 <= i < |binary| => ClassWeight(binary[i], wPos, wNeg))
  }

  /** The clamped positive fraction among the voxels the error scale keeps. */
  function Fraction(errorScale: seq<real>, labels: seq<real>): (f: real)
    requires |errorScale| == |labels|
    ensures MinFrac <= f <= MaxFrac
  {
    FracPos(Sum(Times(Binarized(labels), errorScale)), Sum(errorScale))
  }

  /** The error scale multiplied by the class weights of the labels. */
  function Weighted(errorScale: seq<real>, labels: seq<real>): (r: seq<real>)
    requires |errorScale| == |labels|
    ensures |r| == |labels|
  {
    var f := Fraction(errorScale, labels);
    Times(errorScale, ClassWeights(Binarized(labels), WPos(f), WNeg(f)))
  }

  /** The scales the stage computes from the label data and the mask data. */
  function Scales(labels: seq<real>, masks: seq<seq<real>>): (r: seq<real>)
    requires forall j :: 0 <= j < |masks| ==> |masks[j]| == |labels|
    ensures |r| == |labels|
  {
    Weighted(MaskProduct(masks, |labels|), labels)
  }

  /** Whether the mask under `k` is in the batch and has the labels' shape. */
  predicate MaskOk(vols: map<Key, Volume>, shape: seq<nat>, k: Key) {
    k in vols && vols[k].shape == shape
  }

  /** What the mask loop raises at a mask that is missing or of another shape. */
  function MaskError(vols: map<Key, Volume>, k: Key): Error {
    if k !in vols then MissingVolume(k) else ShapeMismatch(k)
  }

  /** The error the mask loop raises at the first bad mask, if any. */
  function MaskProblem(vols: map<Key, Volume>, shape: seq<nat>, ms: seq<Key>): (r: Option<Error>)
    ensures r.None? <==> forall j :: 0 <= j < |ms| ==> ms[j] in vols && vols[ms[j]].shape == shape
  {
    if ms == [] then None
    else if !MaskOk(vols, shape, ms[0]) then Some(MaskError(vols, ms[0]))
    else MaskProblem(vols, shape, ms[1..])
  }

  /** The data of the masks, in order. */
  function MaskData(vols: map<Key, Volume>, ms: seq<Key>): (r: seq<seq<real>>)
    requires forall j :: 0 <= j < |ms| ==> ms[j] in vols
    ensures |r| == |ms| && forall j :: 0 <= j < |ms| ==> r[j] == vols[ms[j]].data
  {
    seq(|ms|, j requires 0 <= j < |ms| => vols[ms[j]].data)
  }

  /**
   * What `process` writes under `scales`, or the error it raises: the labels
   * must be in the batch, every mask must be there with the labels' shape,
   * and the stage's spec must hold `scales`.
   */
  function Expected(vols: map<Key, Volume>, labels: Key, masks: seq<Key>, scales: Key,
                    spec: map<Key, Spec>): (r: Result<Volume, Error>)
    requires forall k :: k in vols ==> Shaped(vols[k])
    ensures r.Success? ==> Shaped(r.value)
  {
    if labels !in vols then Failure(MissingVolume(labels))
    else
      var lab := vols[labels];
      assert Shaped(lab);
      match MaskProblem(vols, lab.shape, masks)
      case Some(e) => Failure(e)
      case None =>
        if scales !in spec then Failure(MissingSpec(scales))
        else
          var data := MaskData(vols, masks);
          assert forall j :: 0 <= j < |data| ==> |data[j]| == |lab.data| by {
            forall j | 0 <= j < |data|
              ensures |data[j]| == |lab.data|
            {
              assert MaskOk(vols, lab.shape, masks[j]) && Shaped(vols[masks[j]]);
            }
          }
          Success(Volume(Scales(lab.data, data), lab.shape, spec[scales].(roi := lab.spec.roi)))
  }

  /** `error_scale *= m`, in place. */
  method MultiplyInPlace(a: array<real>, m: seq<real>)
    requires a.Length == |m|
    modifies a
    ensures a[..] == Times(old(a[..]), m)
  {
    ghost var before := a[..];
    forall i | 0 <= i < a.Length {
      a[i] := a[i] * m[i];
    }
    ghost var t := Times(before, m);
    assert forall i :: 0 <= i < a.Length ==> a[..][i] == t[i];
    assert a[..] == t;
  }

  /**
   * The weighting step of `process`: count the masked-in and the positive
   * voxels, clamp the positive fraction, and multiply the error scale by the
   * class weights.
   */
  method ApplyClassWeights(errorScale: array<real>, labels: seq<real>)
    requires errorScale.Length == |labels|
    modifies errorScale
    ensures errorScale[..] == Weighted(old(errorScale[..]), labels)
  {
    var maskedIn := Sum(errorScale[..]);
    var binary := Binarized(labels);
    var numPos := Sum(Times(binary, errorScale[..]));
    var fracPos := FracPos(numPos, maskedIn);
    MultiplyInPlace(errorScale, ClassWeights(binary, WPos(fracPos), WNeg(fracPos)));
  }

  class BalanceLabels {
    const labels: Key
    const scales: Key
    const masks: seq<Key>
    /** Set by `prepare` when `scales` was not requested, so `process` does nothing. */
    var skipNext: bool
    /** The stage's spec: what upstream provides, plus what the stage provides. */
    var spec: map<Key, Spec>
    /** The keys the stage has declared it provides. */
    var provided: seq<Key>

    /** The mask argument becomes a list: empty, a singleton, or the given keys. */
    constructor (labels: Key, scales: Key, mask: MaskArg)
      ensures this.labels == labels && this.scales == scales
      ensures mask.NoMask? ==> masks == []
      ensures mask.OneMask? ==> masks == [mask.key]
      ensures mask.MaskList? ==> masks == mask.keys
      ensures !skipNext && spec == map[] && provided == []
    {
      this.labels := labels;
      this.scales := scales;
      masks := match mask
        case NoMask => []
        case OneMask(k) => [k]
        case MaskList(ks) => ks;
      skipNext := false;
      spec := map[];
      provided := [];
    }

    /** `provides(key, s)`: record `key` as provided with spec `s`. */
    method Provides(key: Key, s: Spec)
      modifies this`spec, this`provided
      ensures spec == old(spec)[key := s] && provided == old(provided) + [key]
    {
      spec := spec[key := s];
      provided := provided + [key];
    }

    /**
     * `setup`, given the spec `upstream` provides: the labels and every mask
     * must be provided; then `scales` is provided with the labels' spec and
     * dtype float32.
     */
    method Setup(upstream: map<Key, Spec>) returns (res: Outcome<Error>)
      modifies this`spec, this`provided
      ensures res.Pass? <==> labels in upstream && forall k :: k in masks ==> k in upstream
      ensures res.Fail? ==>
                || (labels !in upstream && res.error == UnmetDependency(labels))
                || (labels in upstream &&
                    exists j :: 0 <= j < |masks| && masks[j] !in upstream && res.error == UnmetDependency(masks[j]) &&
                      forall j' :: 0 <= j' < j ==> masks[j'] in upstream)
      ensures res.Pass? ==>
                && spec == upstream[scales := upstream[labels].(dtype := Some(Float32))]
                && provided == old(provided) + [scales]
      ensures res.Fail? ==> spec == upstream && provided == old(provided)
    {
      spec := upstream;
      if labels !in spec {
        return Fail(UnmetDependency(labels));
      }
      var i := 0;
      while i < |masks|
        invariant 0 <= i <= |masks|
        invariant spec == upstream && provided == old(provided)
        invariant forall j :: 0 <= j < i ==> masks[j] in upstream
      {
        if masks[i] !in spec {
          return Fail(UnmetDependency(masks[i]));
        }
        i := i + 1;
      }
      Provides(scales, spec[labels].(dtype := Some(Float32)));
      res := Pass;
    }

    /** `prepare`: skip the next batch unless `scales` is requested, and do not ask upstream for it. */
    method Prepare(request: BatchRequest)
      requires request.Valid()
      modifies this`skipNext, request
      ensures request.Valid()
      ensures skipNext == (scales !in old(request.specs))
      ensures request.specs == old(request.specs) - {scales}
      ensures request.order == Without(old(request.order), scales)
    {
      skipNext := true;
      if scales in request.specs {
        var _ := request.Remove(scales);
        skipNext := false;
      } else {
        WithoutAbsent(request.order, scales);
        assert request.specs - {scales} == request.specs;
      }
    }

    /**
     * `process`: when skipping, clear the flag and leave the batch alone;
     * otherwise write `Expected` under `scales`, or raise its error with the
     * batch unchanged.
     */
    method Process(batch: Batch) returns (res: Outcome<Error>)
      requires batch.Valid()
      modifies this`skipNext, batch
      ensures batch.Valid() && !skipNext
      ensures old(skipNext) ==> res == Pass && batch.volumes == old(batch.volumes)
      ensures !old(skipNext) ==>
                var e := Expected(old(batch.volumes), labels, masks, scales, spec);
                && (res.Pass? <==> e.Success?)
                && (res.Pass? ==> batch.volumes == old(batch.volumes)[scales := e.value])
                && (res.Fail? ==> res.error == e.error && batch.volumes == old(batch.volumes))
    {
      if skipNext {
        skipNext := false;
        return Pass;
      }
      var vols := batch.volumes;
      if labels !in vols {
        return Fail(MissingVolume(labels));
      }
      var lab := vols[labels];
      var problem, errorScale := ScaleByMasks(vols, lab.shape, masks, |lab.data|);
      if problem.Some? {
        return Fail(problem.value);
      }
      ApplyClassWeights(errorScale, lab.data);
      if scales !in spec {
        return Fail(MissingSpec(scales));
      }
      batch.volumes := vols[scales := Volume(errorScale[..], lab.shape, spec[scales].(roi := lab.spec.roi))];
      res := Pass;
    }
  }

  /**
   * The mask loop of `process`: start from an error scale of ones and
   * multiply it by each mask in turn, stopping at the first mask that is
   * missing or has another shape than the labels.
   */
  method ScaleByMasks(vols: map<Key, Volume>, shape: seq<nat>, masks: seq<Key>, n: nat)
    returns (problem: Option<Error>, errorScale: array<real>)
    requires forall k :: k in vols ==> Shaped(vols[k])
    requires n == Size(shape)
    ensures fresh(errorScale) && errorScale.Length == n
    ensures problem == MaskProblem(vols, shape, masks)
    ensures problem.None? ==>
              && (forall j :: 0 <= j < |masks| ==> |MaskData(vols, masks)[j]| == n)
              && errorScale[..] == MaskProduct(MaskData(vols, masks), n)
  {
    errorScale := new real[n](_ => 1.0);
    assert errorScale[..] == MaskProduct(MaskData(vols, masks[..0]), n);
    var i := 0;
    while i < |masks|
      invariant 0 <= i <= |masks|
      invariant MaskProblem(vols, shape, masks) == MaskProblem(vols, shape, masks[i..])
      invariant forall j :: 0 <= j < i ==> masks[j] in vols && vols[masks[j]].shape == shape
      invariant MaskShapes(vols, masks[..i], n)
      invariant errorScale[..] == MaskProduct(MaskData(vols, masks[..i]), n)
    {
      var id := masks[i];
      assert masks[i..] == [id] + masks[i + 1..];
      if id !in vols {
        return Some(MissingVolume(id)), errorScale;
      }
      var mask := vols[id];
      if mask.shape != shape {
        return Some(ShapeMismatch(id)), errorScale;
      }
      MaskStep(vols, masks, i, shape, n);
      MultiplyInPlace(errorScale, mask.data);
      i := i + 1;
    }
    assert masks[..i] == masks;
    problem := None;
  }

  /** Every mask in `ms` has `n` voxels. */
  ghost predicate MaskShapes(vols: map<Key, Volume>, ms: seq<Key>, n: nat)
    requires forall j :: 0 <= j < |ms| ==> ms[j] in vols
  {
    forall j :: 0 <= j < |ms| ==> |MaskData(vols, ms)[j]| == n
  }

  /** The mask loop multiplies the error scale by one more mask. */
  lemma {:induction false} MaskStep(vols: map<Key, Volume>, ms: seq<Key>, i: nat, shape: seq<nat>, n: nat)
    requires i < |ms| && n == Size(shape)
    requires forall k :: k in vols ==> Shaped(vols[k])
    requires forall j :: 0 <= j <= i ==> ms[j] in vols && vols[ms[j]].shape == shape
    ensures MaskShapes(vols, ms[..i], n) && MaskShapes(vols, ms[..i + 1], n)
    ensures MaskProduct(MaskData(vols, ms[..i + 1]), n) ==
            Times(MaskProduct(MaskData(vols, ms[..i]), n), vols[ms[i]].data)
  {
    var d, d' := MaskData(vols, ms[..i]), MaskData(vols, ms[..i + 1]);
    assert d' == d + [vols[ms[i]].data];
    MaskProductSnoc(d, vols[ms[i]].data, n);
  }

  /** `1/x` is antitone on positive reals. */
  lemma ReciprocalBounds(x: real, lo: real, hi: real)
    requires 0.0 < lo <= x <= hi
    ensures 1.0 / hi <= 1.0 / x <= 1.0 / lo
  {
    assert 1.0 / x - 1.0 / hi == (hi - x) / (x * hi);
    assert 1.0 / lo - 1.0 / x == (x - lo) / (lo * x);
  }

  /** With the fraction clamped to [0.05, 0.95], both class weights lie in [1/1.9, 10]. */
  lemma WeightsBounded(f: real)
    requires MinFrac <= f <= MaxFrac
    ensures 10.0 / 19.0 <= WPos(f) <= 10.0
    ensures 10.0 / 19.0 <= WNeg(f) <= 10.0
  {
    ReciprocalBounds(2.0 * f, 0.1, 1.9);
    ReciprocalBounds(2.0 * (1.0 - f), 0.1, 1.9);
  }

  /** A voxel of the mask product is 0 exactly when one of the masks is 0 there. */
  lemma {:induction false} MaskProductZero(masks: seq<seq<real>>, n: nat, i: nat)
    requires forall j :: 0 <= j < |masks| ==> |masks[j]| == n
    requires i < n
    ensures MaskProduct(masks, n)[i] == 0.0 <==> exists j :: 0 <= j < |masks| && masks[j][i] == 0.0
  {
    ColumnProductZero(masks, n, i);
  }

  lemma {:induction false} ColumnProductZero(masks: seq<seq<real>>, n: nat, i: nat)
    requires forall j :: 0 <= j < |masks| ==> |masks[j]| == n
    requires i < n
    ensures ColumnProduct(masks, n, i) == 0.0 <==> exists j :: 0 <= j < |masks| && masks[j][i] == 0.0
  {
    if masks != [] {
      var init := masks[..|masks| - 1];
      ColumnProductZero(init, n, i);
      var p, x := ColumnProduct(init, n, i), masks[|masks| - 1][i];
      assert p * x == 0.0 <==> p == 0.0 || x == 0.0;
      if p == 0.0 {
        var j :| 0 <= j < |init| && init[j][i] == 0.0;
        assert masks[j][i] == 0.0;
      }
      if exists j :: 0 <= j < |masks| && masks[j][i] == 0.0 {
        var j :| 0 <= j < |masks| && masks[j][i] == 0.0;
        if j < |init| {
          assert init[j][i] == 0.0;
        }
      }
    }
  }

  /** Where every mask is 1, so is the mask product. */
  lemma {:induction false} MaskProductOne(masks: seq<seq<real>>, n: nat, i: nat)
    requires forall j :: 0 <= j < |masks| ==> |masks[j]| == n
    requires i < n && forall j :: 0 <= j < |masks| ==> masks[j][i] == 1.0
    ensures MaskProduct(masks, n)[i] == 1.0
  {
    ColumnProductOne(masks, n, i);
  }

  lemma {:induction false} ColumnProductOne(masks: seq<seq<real>>, n: nat, i: nat)
    requires forall j :: 0 <= j < |masks| ==> |masks[j]| == n
    requires i < n && forall j :: 0 <= j < |masks| ==> masks[j][i] == 1.0
    ensures ColumnProduct(masks, n, i) == 1.0
  {
    if masks != [] {
      ColumnProductOne(masks[..|masks| - 1], n, i);
    }
  }

  /** Multiplying by one more mask extends the mask product. */
  lemma {:induction false} MaskProductSnoc(masks: seq<seq<real>>, m: seq<real>, n: nat)
    requires forall j :: 0 <= j < |masks| ==> |masks[j]| == n
    requires |m| == n
    ensures MaskProduct(masks + [m], n) == Times(MaskProduct(masks, n), m)
  {
    assert (masks + [m])[..|masks|] == masks;
    var t := Times(MaskProduct(masks, n), m);
    forall i | 0 <= i < n
      ensures MaskProduct(masks + [m], n)[i] == t[i]
    {
    }
  }

  /** The weight of a voxel with label `x`: `w_pos` from 0.5 up, `w_neg` below. */
  function LabelWeight(x: real, f: real): real
    requires MinFrac <= f <= MaxFrac
  {
    if x >= 0.5 then WPos(f) else WNeg(f)
  }

  /** Each scale is the mask product at the voxel times the weight of the voxel's class. */
  lemma {:induction false} ScalesAt(labels: seq<real>, masks: seq<seq<real>>, i: nat)
    requires forall j :: 0 <= j < |masks| ==> |masks[j]| == |labels|
    requires i < |labels|
    ensures var es := MaskProduct(masks, |labels|);
            Scales(labels, masks)[i] == es[i] * LabelWeight(labels[i], Fraction(es, labels))
  {
    WeightedAt(MaskProduct(masks, |labels|), labels, i);
  }

  /** One voxel of `Weighted`. */
  lemma {:induction false} WeightedAt(es: seq<real>, labels: seq<real>, i: nat)
    requires |es| == |labels| && i < |labels|
    ensures Weighted(es, labels)[i] == es[i] * LabelWeight(labels[i], Fraction(es, labels))
  {
    var f := Fraction(es, labels);
    ClassWeightOf(labels[i], WPos(f), WNeg(f));
  }

  /** The class weight of a label: `w_pos` from 0.5 up, `w_neg` below. */
  lemma ClassWeightOf(x: real, wPos: real, wNeg: real)
    ensures ClassWeight(Binarize(x), wPos, wNeg) == if x >= 0.5 then wPos else wNeg
  {
  }

  /** A scale is 0 exactly where some mask is 0: both class weights are positive. */
  lemma {:induction false} ScalesZero(labels: seq<real>, masks: seq<seq<real>>, i: nat)
    requires forall j :: 0 <= j < |masks| ==> |masks[j]| == |labels|
    requires i < |labels|
    ensures Scales(labels, masks)[i] == 0.0 <==> exists j :: 0 <= j < |masks| && masks[j][i] == 0.0
  {
    var es := MaskProduct(masks, |labels|);
    var f := Fraction(es, labels);
    ScalesAt(labels, masks, i);
    WeightsBounded(f);
    MaskProductZero(masks, |labels|, i);
  }

  /**
   * With masks of 0s and 1s every scale is 0 (masked out) or a class weight,
   * which lies in [1/1.9, 10].
   */
  lemma {:induction false} ScalesRange(labels: seq<real>, masks: seq<seq<real>>, i: nat)
    requires forall j :: 0 <= j < |masks| ==> |masks[j]| == |labels|
    requires i < |labels| && forall j :: 0 <= j < |masks| ==> masks[j][i] == 0.0 || masks[j][i] == 1.0
    ensures var r := Scales(labels, masks)[i];
            r == 0.0 || 10.0 / 19.0 <= r <= 10.0
  {
    var es := MaskProduct(masks, |labels|);
    ScalesAt(labels, masks, i);
    WeightsBounded(Fraction(es, labels));
    if exists j :: 0 <= j < |masks| && masks[j][i] == 0.0 {
      MaskProductZero(masks, |labels|, i);
    } else {
      MaskProductOne(masks, |labels|, i);
    }
  }

  /** The voxelwise sum `a + b`. */
  function Plus(a: seq<real>, b: seq<real>): (r: seq<real>)
    requires |a| == |b|
    ensures |r| == |a|
  {
    seq(|a|, i requires 0 <= i < |a| => a[i] + b[i])
  }

  /**
   * The voxelwise difference `a - b` of real voxel data; `Rois.Minus` is the
   * same operation on integer coordinates, a separate function because the
   * two element types share no arithmetic.
   */
  function MinusReal(a: seq<real>, b: seq<real>): (r: seq<real>)
    requires |a| == |b|
    ensures |r| == |a|
  {
    seq(|a|, i requires 0 <= i < |a| => a[i] - b[i])
  }

  /** The voxelwise multiple `x * a`. */
  function Scale(a: seq<real>, x: real): (r: seq<real>)
    ensures |r| == |a|
  {
    seq(|a|, i requires 0 <= i < |a| => x * a[i])
  }

  /** `Sum` distributes over `Plus`. */
  lemma {:induction false} SumPlus(a: seq<real>, b: seq<real>, c: seq<real>)
    requires |a| == |b| && c == Plus(a, b)
    ensures Sum(c) == Sum(a) + Sum(b)
  {
    if a != [] {
      var d := Plus(a[1..], b[1..]);
      forall i | 0 <= i < |d|
        ensures c[1..][i] == d[i]
      {
        assert a[1..][i] == a[i + 1] && b[1..][i] == b[i + 1];
      }
      assert c[1..] == d;
      SumPlus(a[1..], b[1..], d);
    }
  }

  /** `Sum` distributes over `MinusReal`. */
  lemma {:induction false} SumMinusReal(a: seq<real>, b: seq<real>, c: seq<real>)
    requires |a| == |b| && c == MinusReal(a, b)
    ensures Sum(c) == Sum(a) - Sum(b)
  {
    if a != [] {
      var d := MinusReal(a[1..], b[1..]);
      forall i | 0 <= i < |d|
        ensures c[1..][i] == d[i]
      {
        assert a[1..][i] == a[i + 1] && b[1..][i] == b[i + 1];
      }
      assert c[1..] == d;
      SumMinusReal(a[1..], b[1..], d);
    }
  }

  /** A common factor comes out of `Sum`. */
  lemma {:induction false} SumScale(a: seq<real>, c: seq<real>, x: real)
    requires c == Scale(a, x)
    ensures Sum(c) == x * Sum(a)
  {
    if a != [] {
      var d := Scale(a[1..], x);
      forall i | 0 <= i < |d|
        ensures c[1..][i] == d[i]
      {
        assert a[1..][i] == a[i + 1];
      }
      assert c[1..] == d;
      SumScale(a[1..], d, x);
      Distribute(x, Sum(a), a[0], Sum(a[1..]));
    }
  }

  lemma Distribute(x: real, s: real, p: real, q: real)
    requires s == p + q
    ensures x * s == x * p + x * q
  {
  }

  /** The sum of `n` copies of `v`. */
  lemma {:induction false} SumConstant(s: seq<real>, v: real)
    requires forall i :: 0 <= i < |s| ==> s[i] == v
    ensures Sum(s) == v * |s| as real
  {
    if s != [] {
      SumConstant(s[1..], v);
    }
  }

  /**
   * Inverse-frequency balancing: when the positive fraction needs no
   * clamping, the scales add up to the masked-in total, half of it on
   * positive voxels and half on negative ones.
   */
  lemma {:induction false} Balance(labels: seq<real>, masks: seq<seq<real>>)
    requires forall j :: 0 <= j < |masks| ==> |masks[j]| == |labels|
    requires var es := MaskProduct(masks, |labels|);
             Sum(es) > 0.0 && MinFrac <= Sum(Times(Binarized(labels), es)) / Sum(es) <= MaxFrac
    ensures var es := MaskProduct(masks, |labels|);
            var s := Scales(labels, masks);
            Sum(Times(Binarized(labels), s)) == Sum(es) / 2.0 && Sum(s) == Sum(es)
  {
    BalanceWeighted(MaskProduct(masks, |labels|), labels);
  }

  /** `Balance` for any error scale. */
  lemma {:induction false} BalanceWeighted(es: seq<real>, labels: seq<real>)
    requires |es| == |labels|
    requires Sum(es) > 0.0 && MinFrac <= Sum(Times(Binarized(labels), es)) / Sum(es) <= MaxFrac
    ensures var s := Weighted(es, labels);
            Sum(Times(Binarized(labels), s)) == Sum(es) / 2.0 && Sum(s) == Sum(es)
  {
    var lb := Binarized(labels);
    var p, m := Sum(Times(lb, es)), Sum(es);
    assert RawFracPos(p, m) == p / m;
    var f := Fraction(es, labels);
    assert f == p / m;
    var wp, wn := WPos(f), WNeg(f);
    var s := Times(es, ClassWeights(lb, wp, wn));
    assert Weighted(es, labels) == s;
    WeightedSums(es, lb, wp, wn);
    var t, total, q := Sum(Times(lb, s)), Sum(s), Sum(MinusReal(es, Times(lb, es)));
    BalanceArithmetic(t, total, p, q, m, f, wp, wn);
  }

  /**
   * The weighted sums of an error scale, for any class weights: the
   * positive voxels contribute `wp` times their error scale, the negative
   * ones (`es - pos`) `wn` times theirs.
   */
  lemma {:induction false} WeightedSums(es: seq<real>, lb: seq<real>, wp: real, wn: real)
    requires |es| == |lb| && forall i :: 0 <= i < |lb| ==> lb[i] == 0.0 || lb[i] == 1.0
    ensures var s, pos := Times(es, ClassWeights(lb, wp, wn)), Times(lb, es);
            var neg := MinusReal(es, pos);
            && Shares(Sum(Times(lb, s)), Sum(s), Sum(pos), Sum(neg), wp, wn)
            && Sum(neg) == Sum(es) - Sum(pos)
  {
    var pos := Times(lb, es);
    var s := Times(es, ClassWeights(lb, wp, wn));
    var neg := MinusReal(es, pos);
    WeightedPointwise(es, lb, wp, wn);
    ShareSums(pos, neg, Times(lb, s), s, wp, wn);
    SumMinusReal(es, pos, neg);
  }

  /** The sums of `t = wp * pos` and of `s = wp * pos + wn * neg`. */
  lemma {:induction false} ShareSums(pos: seq<real>, neg: seq<real>, t: seq<real>, s: seq<real>,
                                     wp: real, wn: real)
    requires |pos| == |neg| && t == Scale(pos, wp) && s == Plus(Scale(pos, wp), Scale(neg, wn))
    ensures Shares(Sum(t), Sum(s), Sum(pos), Sum(neg), wp, wn)
  {
    SumScale(pos, t, wp);
    SumPlus(Scale(pos, wp), Scale(neg, wn), s);
    SumScale(pos, Scale(pos, wp), wp);
    SumScale(neg, Scale(neg, wn), wn);
  }

  /** `WeightedSums` voxel by voxel. */
  lemma {:induction false} WeightedPointwise(es: seq<real>, lb: seq<real>, wp: real, wn: real)
    requires |es| == |lb| && forall i :: 0 <= i < |lb| ==> lb[i] == 0.0 || lb[i] == 1.0
    ensures var pos, s := Times(lb, es), Times(es, ClassWeights(lb, wp, wn));
            && Times(lb, s) == Scale(pos, wp)
            && s == Plus(Scale(pos, wp), Scale(MinusReal(es, pos), wn))
  {
    var pos, s := Times(lb, es), Times(es, ClassWeights(lb, wp, wn));
    var neg := MinusReal(es, pos);
    forall i | 0 <= i < |es|
      ensures Times(lb, s)[i] == Scale(pos, wp)[i]
      ensures s[i] == Plus(Scale(pos, wp), Scale(neg, wn))[i]
    {
      WeightedVoxel(es[i], lb[i], wp, wn);
    }
  }

  /** One voxel of `WeightedSums`. */
  lemma WeightedVoxel(e: real, b: real, wp: real, wn: real)
    requires b == 0.0 || b == 1.0
    ensures b * (e * ClassWeight(b, wp, wn)) == wp * (b * e)
    ensures e * ClassWeight(b, wp, wn) == wp * (b * e) + wn * (e - b * e)
  {
  }

  /**
   * `t` is the weighted positive share `wp * p` and `s` the whole weighted
   * sum `wp * p + wn * q`.
   */
  predicate Shares(t: real, s: real, p: real, q: real, wp: real, wn: real) {
    t == wp * p && s == wp * p + wn * q
  }

  /**
   * The arithmetic of inverse-frequency weights for an unclamped fraction
   * `f = p / m`: with `t = w_pos * p` the weighted positive share and
   * `s = t + w_neg * q` the whole weighted sum, where `q = m - p`, the
   * positive share is half of `m` and the whole sum is `m`.
   */
  lemma BalanceArithmetic(t: real, s: real, p: real, q: real, m: real, f: real, wp: real, wn: real)
    requires m > 0.0 && f == p / m && MinFrac <= f <= MaxFrac && q == m - p
    requires wp == WPos(f) && wn == WNeg(f)
    requires Shares(t, s, p, q, wp, wn)
    ensures t == m / 2.0 && s == m
  {
    assert p == f * m;
    assert WPos(f) * p == m / 2.0 by {
      assert WPos(f) * p == (f * m) / (2.0 * f);
    }
    assert WNeg(f) * q == m / 2.0 by {
      assert q == (1.0 - f) * m;
      assert WNeg(f) * q == ((1.0 - f) * m) / (2.0 * (1.0 - f));
    }
  }

  /** All labels positive and no mask: the fraction clamps to 0.95 and every scale is 1/1.9. */
  lemma {:induction false} AllPositive(labels: seq<real>)
    requires |labels| > 0 && forall i :: 0 <= i < |labels| ==> labels[i] >= 0.5
    ensures Scales(labels, []) == seq(|labels|, _ => 10.0 / 19.0)
  {
    var es := MaskProduct([], |labels|);
    AllPositiveFraction(labels);
    forall i | 0 <= i < |labels|
      ensures Scales(labels, [])[i] == 10.0 / 19.0
    {
      WeightedAt(es, labels, i);
    }
  }

  /** With every label positive and no mask, the positive fraction is 1 and clamps to 0.95. */
  lemma {:induction false} AllPositiveFraction(labels: seq<real>)
    requires |labels| > 0 && forall i :: 0 <= i < |labels| ==> labels[i] >= 0.5
    ensures Fraction(MaskProduct([], |labels|), labels) == MaxFrac
  {
    var es := MaskProduct([], |labels|);
    var pos := Times(Binarized(labels), es);
    forall i | 0 <= i < |labels|
      ensures pos[i] == es[i]
    {
      assert es[i] == 1.0;
    }
    assert pos == es;
    SumConstant(es, 1.0);
    var m := Sum(es);
    assert m > 0.0;
    assert RawFracPos(m, m) == 1.0;
  }

  /** All labels negative and no mask: the fraction clamps to 0.05 and every scale is 1/1.9. */
  lemma {:induction false} AllNegative(labels: seq<real>)
    requires |labels| > 0 && forall i :: 0 <= i < |labels| ==> labels[i] < 0.5
    ensures Scales(labels, []) == seq(|labels|, _ => 10.0 / 19.0)
  {
    var n := |labels|;
    var es := MaskProduct([], n);
    var pos := Times(Binarized(labels), es);
    SumConstant(es, 1.0);
    SumConstant(pos, 0.0);
    assert Fraction(es, labels) == MinFrac;
  }

  /**
   * A mask that is 0 everywhere: nothing is masked in, the fraction falls
   * back to 0 and clamps to 0.05, and every scale is 0.
   */
  lemma {:induction false} ZeroMask(labels: seq<real>)
    ensures var es := MaskProduct([seq(|labels|, _ => 0.0)], |labels|);
            && Fraction(es, labels) == MinFrac
            && Scales(labels, [seq(|labels|, _ => 0.0)]) == seq(|labels|, _ => 0.0)
  {
    var masks := [seq(|labels|, _ => 0.0)];
    var es := MaskProduct(masks, |labels|);
    SumConstant(es, 0.0);
    var s := Scales(labels, masks);
    forall i | 0 <= i < |labels|
      ensures s[i] == 0.0
    {
      ScalesZero(labels, masks, i);
    }
  }

  /**
   * What `process` writes: the scales of the labels and masks, with the
   * labels' shape and ROI and the rest of the stage's spec for `scales`;
   * it fails exactly when the labels, a mask or the spec of `scales` is
   * missing or a mask has another shape.
   */
  lemma {:induction false} ExpectedOutput(vols: map<Key, Volume>, labels: Key, masks: seq<Key>, scales: Key,
                       spec: map<Key, Spec>)
    requires forall k :: k in vols ==> Shaped(vols[k])
    ensures var r := Expected(vols, labels, masks, scales, spec);
            r.Success? <==>
              && labels in vols && scales in spec
              && forall j :: 0 <= j < |masks| ==> masks[j] in vols && vols[masks[j]].shape == vols[labels].shape
    ensures var r := Expected(vols, labels, masks, scales, spec);
            r.Success? ==>
              && r.value.shape == vols[labels].shape
              && r.value.spec == spec[scales].(roi := vols[labels].spec.roi)
              && |r.value.data| == |vols[labels].data|
              && forall i :: 0 <= i < |r.value.data| ==>
                   (r.value.data[i] == 0.0 <==> exists j :: 0 <= j < |masks| && vols[masks[j]].data[i] == 0.0)
  {
    var r := Expected(vols, labels, masks, scales, spec);
    if r.Success? {
      var lab := vols[labels];
      var data := MaskData(vols, masks);
      assert forall j :: 0 <= j < |data| ==> |data[j]| == |lab.data| by {
        forall j | 0 <= j < |data|
          ensures |data[j]| == |lab.data|
        {
          assert Shaped(vols[masks[j]]);
        }
      }
      forall i | 0 <= i < |r.value.data|
        ensures r.value.data[i] == 0.0 <==> exists j :: 0 <= j < |masks| && vols[masks[j]].data[i] == 0.0
      {
        ScalesZero(lab.data, data, i);
      }
    }
  }
}
