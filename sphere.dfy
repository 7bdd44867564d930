/** The parts of the sphere view (src/utils/sphere.py) that are not
    rendering: the frame-size check of `to_bytes`, the zero-norm guard used
    when the vertices are projected onto the unit sphere, and the orientation
    transform that `update` installs. */
module Sphere {
  import opened Measure
  import opened Quaternions

  /** Side of the rendered image, in pixels. */
  const IMAGE_SIZE: nat := 400

  /** The default `n_pixels` of `to_bytes`. */
  const DEFAULT_PIXELS: int := 200

  /** `int(np.sqrt(n))`: the integer square root, rounded down. */
  function FloorSqrt(n: nat): (r: nat)
    ensures r * r <= n < (r + 1) * (r + 1)
  {
    if n == 0 then 0
    else
      var s := FloorSqrt(n - 1);
      if (s + 1) * (s + 1) <= n then s + 1 else s
  }

  lemma SquareLess(a: nat, b: nat)
    requires a * a < b * b
    ensures a < b
  {
  }

  /** The bracketing property determines the root. */
  lemma FloorSqrtIs(n: nat, r: nat)
    requires r * r <= n < (r + 1) * (r + 1)
    ensures FloorSqrt(n) == r
  {
    var s := FloorSqrt(n);
    SquareLess(s, r + 1);
    SquareLess(r, s + 1);
  }

  /** The two ValueErrors `to_bytes` raises before rendering. */
  datatype SizeError = NotPositive | NotSquare

  datatype RenderSize = Accepted(dim: nat) | Rejected(error: SizeError)

  /** The argument check of `to_bytes(n_pixels)`: the side of the square image
      to render, or the error raised. */
  function CheckPixels(nPixels: int): (r: RenderSize)
    ensures r == Rejected(NotPositive) <==> nPixels <= 0
    ensures nPixels > 0 ==> r.Accepted? || r == Rejected(NotSquare)
    ensures r.Accepted? ==> r.dim * r.dim == nPixels
  {
    if nPixels <= 0 then Rejected(NotPositive)
    else
      var dim := FloorSqrt(nPixels);
      if dim * dim != nPixels then Rejected(NotSquare) else Accepted(dim)
  }

  /** A positive pixel count is accepted with side `d` exactly when it is the
      square of `d`; so it is rejected as not square exactly when it is the
      square of no number. */
  lemma CheckPixelsSquare(nPixels: int, d: nat)
    requires nPixels > 0
    ensures CheckPixels(nPixels) == Accepted(d) <==> d * d == nPixels
    ensures CheckPixels(nPixels) == Rejected(NotSquare) ==> d * d != nPixels
  {
    if d * d == nPixels {
      FloorSqrtIs(nPixels, d);
    }
  }

  /** `to_bytes()` with its default argument always raises. */
  lemma DefaultPixelsRejected()
    ensures CheckPixels(DEFAULT_PIXELS) == Rejected(NotSquare)
  {
    FloorSqrtIs(200, 14);
  }

  /** The frame the application asks for is accepted with side IMAGE_SIZE. */
  lemma ImagePixelsAccepted()
    ensures CheckPixels(IMAGE_SIZE * IMAGE_SIZE) == Accepted(IMAGE_SIZE)
  {
    FloorSqrtIs(IMAGE_SIZE * IMAGE_SIZE, IMAGE_SIZE);
  }

  /** The vertex norms after `norms[norms == 0] = 1.0`. */
  function WithZeroNormsReplaced(norms: seq<real>): (r: seq<real>)
    ensures |r| == |norms|
  {
    seq(|norms|, i requires 0 <= i < |norms| => if norms[i] == 0.0 then 1.0 else norms[i])
  }

  predicate NoZero(norms: seq<real>) {
    forall i | 0 <= i < |norms| :: norms[i] != 0.0
  }

  /** After the replacement no norm is zero, the non-zero norms are kept and
      the zero ones become 1. */
  lemma ReplacedHasNoZero(norms: seq<real>)
    ensures NoZero(WithZeroNormsReplaced(norms))
    ensures forall i | 0 <= i < |norms| :: norms[i] != 0.0 ==> WithZeroNormsReplaced(norms)[i] == norms[i]
    ensures forall i | 0 <= i < |norms| :: norms[i] == 0.0 ==> WithZeroNormsReplaced(norms)[i] == 1.0
  {
  }

  /** The masked assignment, in place on the array of norms. */
  method ReplaceZeroNorms(norms: array<real>)
    modifies norms
    ensures norms[..] == WithZeroNormsReplaced(old(norms[..]))
  {
    forall i | 0 <= i < norms.Length && norms[i] == 0.0 {
      norms[i] := 1.0;
    }
  }

  /** `vunit = verts / norms`, with the per-vertex norms after the guard. The
      division is defined for every vertex, the zero vertex included. */
  function UnitVertices(verts: seq<Vec3>, math: Math): (r: seq<Vec3>)
    ensures |r| == |verts|
  {
    var norms := WithZeroNormsReplaced(seq(|verts|, i requires 0 <= i < |verts| => Norm(verts[i], math)));
    ReplacedHasNoZero(seq(|verts|, i requires 0 <= i < |verts| => Norm(verts[i], math)));
    seq(|verts|, i requires 0 <= i < |verts| => Divide(verts[i], norms[i]))
  }

  /** With a lawful square root every vertex is projected onto the unit
      sphere, except a vertex at the origin, which stays there. */
  lemma UnitVerticesOnSphere(verts: seq<Vec3>, math: Math, i: nat)
    requires Lawful(math) && i < |verts|
    ensures verts[i] == ZERO ==> UnitVertices(verts, math)[i] == ZERO
    ensures verts[i] != ZERO ==> SumSquares(UnitVertices(verts, math)[i]) == 1.0
  {
    var norms := seq(|verts|, k requires 0 <= k < |verts| => Norm(verts[k], math));
    ReplacedHasNoZero(norms);
    NormPositiveIffNonZero(verts[i], math);
    if verts[i] != ZERO {
      DividedIsUnit(verts[i], math);
    }
  }

  /** The displayed orientation. */
  class SphereOrientation {
    var transform: Matrix

    /** A fresh `MatrixTransform` is the identity. */
    constructor ()
      ensures transform == IDENTITY4
    {
      transform := IDENTITY4;
    }

    /** `update(quat)`: the transform becomes the quaternion's rotation matrix. */
    method Update(quat: Quaternion)
      modifies this
      ensures transform == RotationMatrix(quat.q)
    {
      transform := RotationMatrix(quat.q);
    }
  }
}
