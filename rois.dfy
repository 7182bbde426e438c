/**
 * Regions of interest: axis-aligned boxes in world units, given by an offset
 * and a shape per axis, with the upper bound `offset + shape` exclusive.
 */
module Rois {
  import opened Wrappers
  import opened Streams

  datatype Box = Box(offset: seq<int>, shape: seq<int>)

  /** A ROI has as many offset components as shape components. */
  type Roi = b: Box | |b.offset| == |b.shape| witness Box([], [])

  function Dims(r: Roi): nat {
    |r.offset|
  }

  function Min(x: int, y: int): int {
    if x <= y then x else y
  }

  function Max(x: int, y: int): int {
    if x <= y then y else x
  }

  /** The exclusive upper corner `offset + shape`. */
  function End(r: Roi): (e: seq<int>)
    ensures |e| == Dims(r)
  {
    seq(Dims(r), i requires 0 <= i < Dims(r) => r.offset[i] + r.shape[i])
  }

  /** `offset + shape / 2`, each component rounded down to the integer grid. */
  function Center(r: Roi): (c: seq<int>)
    ensures |c| == Dims(r)
  {
    seq(Dims(r), i requires 0 <= i < Dims(r) => r.offset[i] + r.shape[i] / 2)
  }

  /** Coordinate subtraction. */
  function Minus(a: seq<int>, b: seq<int>): (d: seq<int>)
    requires |a| == |b|
    ensures |d| == |a|
  {
    seq(|a|, i requires 0 <= i < |a| => a[i] - b[i])
  }

  /** A ROI with a zero offset and the given shape. */
  function AtOrigin(shape: seq<int>): (r: Roi)
  {
    Box(seq(|shape|, i => 0), shape)
  }

  /** `roi.shift(delta)`: a pure translation. */
  function Shift(r: Roi, delta: seq<int>): (s: Roi)
    requires |delta| == Dims(r)
  {
    Box(seq(Dims(r), i requires 0 <= i < Dims(r) => r.offset[i] + delta[i]), r.shape)
  }

  /**
   * `roi.shift(c - roi.get_center())`: the translate of `r` whose centre is
   * `c`. Its shape is that of `r`.
   */
  function Recentre(r: Roi, c: seq<int>): (s: Roi)
    requires |c| == Dims(r)
    ensures s.shape == r.shape
    ensures Center(s) == c
    ensures Dims(s) == Dims(r)
  {
    Shift(r, Minus(c, Center(r)))
  }

  /** `inner` lies within `outer` (both of the same dimension). */
  predicate Contains(outer: Roi, inner: Roi) {
    && Dims(outer) == Dims(inner)
    && forall i :: 0 <= i < Dims(outer) ==>
         outer.offset[i] <= inner.offset[i] && End(inner)[i] <= End(outer)[i]
  }

  /**
   * `a.union(b)`: the box spanned by the smaller offsets and the larger upper
   * corners. Operands of different dimension fail.
   */
  function Union(a: Roi, b: Roi): (u: Result<Roi, Error>)
    ensures u.Success? <==> Dims(a) == Dims(b)
    ensures u.Failure? ==> u.error == DimensionMismatch
    ensures u.Success? ==> Contains(u.value, a) && Contains(u.value, b)
  {
    if Dims(a) != Dims(b) then Failure(DimensionMismatch)
    else
      var lo := seq(Dims(a), i requires 0 <= i < Dims(a) => Min(a.offset[i], b.offset[i]));
      var hi := seq(Dims(a), i requires 0 <= i < Dims(a) => Max(End(a)[i], End(b)[i]));
      Success(Box(lo, Minus(hi, lo)))
  }

  lemma ContainsTransitive(a: Roi, b: Roi, c: Roi)
    requires Contains(a, b) && Contains(b, c)
    ensures Contains(a, c)
  {
  }

  /** The union is commutative. */
  lemma UnionCommutes(a: Roi, b: Roi)
    ensures Union(a, b) == Union(b, a)
  {
    if Dims(a) == Dims(b) {
      var u, v := Union(a, b).value, Union(b, a).value;
      assert u.offset == v.offset;
      assert End(u) == End(v);
      assert u.shape == v.shape by {
        forall i | 0 <= i < Dims(u) ensures u.shape[i] == v.shape[i] {
          assert u.shape[i] == End(u)[i] - u.offset[i];
        }
      }
    }
  }

  /** The union is the smallest ROI containing both operands. */
  lemma UnionLeast(a: Roi, b: Roi, c: Roi)
    requires Contains(c, a) && Contains(c, b)
    ensures Union(a, b).Success? && Contains(c, Union(a, b).value)
  {
    var u := Union(a, b).value;
    forall i | 0 <= i < Dims(c)
      ensures c.offset[i] <= u.offset[i] && End(u)[i] <= End(c)[i]
    {
      assert End(u)[i] == Max(End(a)[i], End(b)[i]);
    }
  }

  /** The union of a ROI with itself is that ROI. */
  lemma UnionIdempotent(a: Roi)
    ensures Union(a, a) == Success(a)
  {
    var u := Union(a, a).value;
    assert u.offset == a.offset;
    assert u.shape == a.shape by {
      forall i | 0 <= i < Dims(a) ensures u.shape[i] == a.shape[i] {
        assert End(a)[i] == a.offset[i] + a.shape[i];
      }
    }
  }

  /** The union is associative. */
  lemma UnionAssociative(a: Roi, b: Roi, c: Roi)
    requires Dims(a) == Dims(b) == Dims(c)
    ensures Union(Union(a, b).value, c) == Union(a, Union(b, c).value)
  {
    var ab, bc := Union(a, b).value, Union(b, c).value;
    var l, r := Union(ab, c).value, Union(a, bc).value;
    forall i | 0 <= i < Dims(a)
      ensures End(ab)[i] == Max(End(a)[i], End(b)[i]) && End(bc)[i] == Max(End(b)[i], End(c)[i])
    {
    }
    assert l.offset == r.offset;
    forall i | 0 <= i < Dims(a)
      ensures End(l)[i] == End(r)[i]
    {
      assert End(l)[i] == Max(End(ab)[i], End(c)[i]);
      assert End(r)[i] == Max(End(a)[i], End(bc)[i]);
    }
    assert l.shape == r.shape by {
      forall i | 0 <= i < Dims(a) ensures l.shape[i] == r.shape[i] {
        assert l.shape[i] == End(l)[i] - l.offset[i];
        assert r.shape[i] == End(r)[i] - r.offset[i];
      }
    }
  }

  /**
   * Two ROIs with the same centre have a union with that centre: along every
   * axis the larger one spans the union, because both `s / 2` and
   * `s - s / 2` grow with the extent `s`.
   */
  lemma UnionConcentric(a: Roi, b: Roi)
    requires Center(a) == Center(b)
    ensures Union(a, b).Success? && Center(Union(a, b).value) == Center(a)
  {
    assert Dims(a) == |Center(a)| == Dims(b);
    var u := Union(a, b).value;
    forall i | 0 <= i < Dims(a) ensures Center(u)[i] == Center(a)[i] {
      var c := Center(a)[i];
      assert a.offset[i] == c - a.shape[i] / 2;
      assert b.offset[i] == c - b.shape[i] / 2 by { assert Center(b)[i] == c; }
      if a.shape[i] <= b.shape[i] {
        assert a.shape[i] / 2 <= b.shape[i] / 2;
        assert a.shape[i] - a.shape[i] / 2 <= b.shape[i] - b.shape[i] / 2;
        assert u.offset[i] == b.offset[i];
        assert End(u)[i] == End(b)[i];
        assert u.shape[i] == b.shape[i];
        assert Center(u)[i] == Center(b)[i];
      } else {
        assert b.shape[i] / 2 <= a.shape[i] / 2;
        assert b.shape[i] - b.shape[i] / 2 <= a.shape[i] - a.shape[i] / 2;
        assert u.offset[i] == a.offset[i];
        assert End(u)[i] == End(a)[i];
        assert u.shape[i] == a.shape[i];
      }
    }
  }
}
