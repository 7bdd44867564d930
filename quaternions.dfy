/** The orientation quaternion (src/utils/quaternion.py). Floating-point numbers
    are modelled as reals. The square root behind `np.linalg.norm`, `atan2`,
    `asin` and the FQA estimator of the ahrs library are foreign code: they are
    passed in as the fields of a `Math` value and only the laws stated in
    `Lawful` are assumed of them, where a lemma says so. */
module Quaternions {
  import opened Measure

  /** A quaternion `(w, x, y, z)`, `w` being the scalar part. */
  datatype Quat = Quat(w: real, x: real, y: real, z: real)

  const IDENTITY: Quat := Quat(1.0, 0.0, 0.0, 0.0)

  /** The value of `np.pi`, the double nearest to pi, written out exactly. */
  const PI: real := 3.141592653589793115997963468544185161590576171875

  /** The numeric routines the module calls but does not define. */
  datatype Math = Math(sqrt: real -> real, atan2: (real, real) -> real, asin: real -> real,
                       fqa: (Vec3, Vec3) -> Quat)

  /** `sqrt` gives the non-negative square root of a non-negative number. */
  ghost predicate Lawful(math: Math) {
    forall r: real :: r >= 0.0 ==> math.sqrt(r) >= 0.0 && math.sqrt(r) * math.sqrt(r) == r
  }

  function SumSquares(v: Vec3): real { v.x * v.x + v.y * v.y + v.z * v.z }

  /** `np.linalg.norm` of a 3-vector. */
  function Norm(v: Vec3, math: Math): real { math.sqrt(SumSquares(v)) }

  /** The in-place division `v /= n` of a 3-vector by its norm. */
  function Divide(v: Vec3, n: real): Vec3
    requires n != 0.0
  {
    Vec3(v.x / n, v.y / n, v.z / n)
  }

  const ZERO: Vec3 := Vec3(0.0, 0.0, 0.0)

  /** Products and squares are named, so that the facts about them below are
      stated on whole terms. */
  function Product(a: real, b: real): real { a * b }

  function Square(r: real): real { Product(r, r) }

  lemma ProductPositive(a: real, b: real)
    requires a > 0.0 && b > 0.0
    ensures Product(a, b) > 0.0
  {
  }

  lemma ProductZero(a: real, b: real)
    requires Product(a, b) == 0.0
    ensures a == 0.0 || b == 0.0
  {
  }

  lemma SquareNonNegative(a: real)
    ensures a * a >= 0.0
  {
    if a < 0.0 {
      assert (-a) * (-a) == a * a;
    }
  }

  lemma SumSquaresZero(v: Vec3)
    ensures SumSquares(v) >= 0.0
    ensures SumSquares(v) == 0.0 <==> v == ZERO
  {
    SquareNonNegative(v.x);
    SquareNonNegative(v.y);
    SquareNonNegative(v.z);
    if SumSquares(v) == 0.0 {
      ProductZero(v.x, v.x);
      ProductZero(v.y, v.y);
      ProductZero(v.z, v.z);
    }
  }

  /** A lawful square root, squared, gives back its argument. */
  lemma RootSquared(math: Math, s: real)
    requires Lawful(math) && s >= 0.0
    ensures math.sqrt(s) >= 0.0 && Square(math.sqrt(s)) == s
  {
  }

  /** A non-negative root is positive exactly when its square is. */
  lemma RootPositive(s: real, root: real)
    requires root >= 0.0 && Square(root) == s
    ensures root > 0.0 <==> s > 0.0
  {
    if root > 0.0 {
      ProductPositive(root, root);
    }
  }

  /** With a lawful square root, the guard `norm > 0` holds exactly for the
      non-zero vectors. */
  lemma NormPositiveIffNonZero(v: Vec3, math: Math)
    requires Lawful(math)
    ensures Norm(v, math) > 0.0 <==> v != ZERO
  {
    SumSquaresZero(v);
    RootSquared(math, SumSquares(v));
    RootPositive(SumSquares(v), Norm(v, math));
  }

  lemma QuotientSquared(a: real, n: real)
    requires n != 0.0
    ensures (a / n) * (a / n) * (n * n) == a * a
  {
  }

  lemma DivideSumSquares(v: Vec3, n: real)
    requires n != 0.0
    ensures SumSquares(Divide(v, n)) * Square(n) == SumSquares(v)
  {
    QuotientSquared(v.x, n);
    QuotientSquared(v.y, n);
    QuotientSquared(v.z, n);
  }

  lemma Cancel(x: real, p: real, s: real)
    requires p > 0.0
    requires x * p == s
    requires p == s
    ensures x == 1.0
  {
  }

  /** The only non-negative root of 1 is 1. */
  lemma UnitRoot(s: real)
    requires s >= 0.0 && Square(s) == 1.0
    ensures s == 1.0
  {
    assert Product(s - 1.0, s + 1.0) == Square(s) - 1.0;
    ProductZero(s - 1.0, s + 1.0);
  }

  /** Dividing a vector by its positive norm, as `update` does, gives a vector
      of norm 1. */
  lemma DividedIsUnit(v: Vec3, math: Math)
    requires Lawful(math) && Norm(v, math) > 0.0
    ensures SumSquares(Divide(v, Norm(v, math))) == 1.0
    ensures Norm(Divide(v, Norm(v, math)), math) == 1.0
  {
    var n := Norm(v, math);
    DivideSumSquares(v, n);
    ProductPositive(n, n);
    SumSquaresZero(v);
    RootSquared(math, SumSquares(v));
    Cancel(SumSquares(Divide(v, n)), Square(n), SumSquares(v));
    RootSquared(math, 1.0);
    UnitRoot(math.sqrt(1.0));
  }

  /** The outcome of one `update`: the estimate was taken, or one of the two
      zero-reading warnings was printed and the update abandoned. */
  datatype UpdateOutcome = Estimated | ZeroAccelerometer | ZeroMagnetometer

  /** The quaternion `update` leaves behind when it starts from `q`: `q` itself
      when either reading has zero norm, else the FQA estimate of the two unit
      vectors. */
  function Estimate(q: Quat, m: Measurement, math: Math): Quat {
    if Norm(m.acc, math) <= 0.0 || Norm(m.mag, math) <= 0.0 then q
    else math.fqa(Divide(m.acc, Norm(m.acc, math)), Divide(m.mag, Norm(m.mag, math)))
  }

  class Quaternion {
    var q: Quat

    /** `__init__`: the identity rotation. */
    constructor ()
      ensures q == IDENTITY
    {
      q := IDENTITY;
    }

    /** `update`: normalises the accelerometer reading, then the magnetometer
        reading, abandoning the update with a warning at the first zero norm;
        otherwise `q` becomes the FQA estimate of the two unit vectors. */
    method Update(m: Measurement, math: Math) returns (outcome: UpdateOutcome)
      modifies this
      ensures outcome == ZeroAccelerometer <==> Norm(m.acc, math) <= 0.0
      ensures outcome == ZeroMagnetometer <==> Norm(m.acc, math) > 0.0 && Norm(m.mag, math) <= 0.0
      ensures outcome != Estimated ==> q == old(q)
      ensures outcome == Estimated ==>
        q == math.fqa(Divide(m.acc, Norm(m.acc, math)), Divide(m.mag, Norm(m.mag, math)))
      ensures q == Estimate(old(q), m, math)
    {
      var acc := m.acc;
      var accNorm := Norm(acc, math);
      if accNorm > 0.0 {
        acc := Divide(acc, accNorm);
      } else {
        return ZeroAccelerometer;
      }
      var mag := m.mag;
      var magNorm := Norm(mag, math);
      if magNorm > 0.0 {
        mag := Divide(mag, magNorm);
      } else {
        return ZeroMagnetometer;
      }
      q := math.fqa(acc, mag);
      return Estimated;
    }
  }

  type Matrix = seq<seq<real>>

  /** The entries of the rotation block of `to_matrix4`, row by row. */
  function M00(q: Quat): real { 1.0 - 2.0 * (q.y * q.y + q.z * q.z) }
  function M01(q: Quat): real { 2.0 * (q.x * q.y - q.z * q.w) }
  function M02(q: Quat): real { 2.0 * (q.x * q.z + q.y * q.w) }
  function M10(q: Quat): real { 2.0 * (q.x * q.y + q.z * q.w) }
  function M11(q: Quat): real { 1.0 - 2.0 * (q.x * q.x + q.z * q.z) }
  function M12(q: Quat): real { 2.0 * (q.y * q.z - q.x * q.w) }
  function M20(q: Quat): real { 2.0 * (q.x * q.z - q.y * q.w) }
  function M21(q: Quat): real { 2.0 * (q.y * q.z + q.x * q.w) }
  function M22(q: Quat): real { 1.0 - 2.0 * (q.x * q.x + q.y * q.y) }

  /** `to_matrix4`: the homogeneous rotation matrix of a quaternion. */
  function RotationMatrix(q: Quat): (r: Matrix)
    ensures |r| == 4 && forall i | 0 <= i < 4 :: |r[i]| == 4
    ensures r[3] == [0.0, 0.0, 0.0, 1.0]
    ensures forall i | 0 <= i < 3 :: r[i][3] == 0.0
  {
    [[M00(q), M01(q), M02(q), 0.0],
     [M10(q), M11(q), M12(q), 0.0],
     [M20(q), M21(q), M22(q), 0.0],
     [0.0, 0.0, 0.0, 1.0]]
  }

  const IDENTITY4: Matrix :=
    [[1.0, 0.0, 0.0, 0.0], [0.0, 1.0, 0.0, 0.0], [0.0, 0.0, 1.0, 0.0], [0.0, 0.0, 0.0, 1.0]]

  /** The identity quaternion gives the identity matrix. */
  lemma IdentityMatrix()
    ensures RotationMatrix(IDENTITY) == IDENTITY4
  {
  }

  function NormSquared(q: Quat): real { q.w * q.w + q.x * q.x + q.y * q.y + q.z * q.z }

  /** The dot product of two 3-vectors given by their entries. */
  function Dot(a0: real, a1: real, a2: real, b0: real, b1: real, b2: real): real {
    a0 * b0 + a1 * b1 + a2 * b2
  }

  function Dot3(a: seq<real>, b: seq<real>): real
    requires |a| >= 3 && |b| >= 3
  {
    Dot(a[0], a[1], a[2], b[0], b[1], b[2])
  }

  /** The products of the rows of the rotation block, for any quaternion, as
      polynomials in its squared norm `n`: each differs from the product of an
      orthonormal frame by a multiple of `n - 1`. Each is stated three times:
      as a polynomial identity, with the entries as given numbers, and on the
      matrix itself, so that each step stays small for the solver. */
  lemma Expanded00(w: real, x: real, y: real, z: real)
    ensures var n := w * w + x * x + y * y + z * z;
      Dot(1.0 - 2.0 * (y * y + z * z), 2.0 * (x * y - z * w), 2.0 * (x * z + y * w), 1.0 - 2.0 * (y * y + z * z), 2.0 * (x * y - z * w), 2.0 * (x * z + y * w)) == 1.0 + Product(4.0 * (y * y + z * z), n - 1.0)
  {
  }

  lemma Gram00(a0: real, a1: real, a2: real, b0: real, b1: real, b2: real, w: real, x: real, y: real, z: real, n: real)
    requires a0 == 1.0 - 2.0 * (y * y + z * z) && a1 == 2.0 * (x * y - z * w) && a2 == 2.0 * (x * z + y * w)
    requires b0 == 1.0 - 2.0 * (y * y + z * z) && b1 == 2.0 * (x * y - z * w) && b2 == 2.0 * (x * z + y * w)
    requires n == w * w + x * x + y * y + z * z
    ensures Dot(a0, a1, a2, b0, b1, b2) == 1.0 + Product(4.0 * (y * y + z * z), n - 1.0)
  {
    Expanded00(w, x, y, z);
  }

  lemma RowProduct00(q: Quat)
    ensures var x, y, z, n := q.x, q.y, q.z, NormSquared(q);
      Dot3(RotationMatrix(q)[0], RotationMatrix(q)[0]) == 1.0 + Product(4.0 * (y * y + z * z), n - 1.0)
  {
    Gram00(M00(q), M01(q), M02(q), M00(q), M01(q), M02(q), q.w, q.x, q.y, q.z, NormSquared(q));
  }

  lemma Expanded11(w: real, x: real, y: real, z: real)
    ensures var n := w * w + x * x + y * y + z * z;
      Dot(2.0 * (x * y + z * w), 1.0 - 2.0 * (x * x + z * z), 2.0 * (y * z - x * w), 2.0 * (x * y + z * w), 1.0 - 2.0 * (x * x + z * z), 2.0 * (y * z - x * w)) == 1.0 + Product(4.0 * (x * x + z * z), n - 1.0)
  {
  }

  lemma Gram11(a0: real, a1: real, a2: real, b0: real, b1: real, b2: real, w: real, x: real, y: real, z: real, n: real)
    requires a0 == 2.0 * (x * y + z * w) && a1 == 1.0 - 2.0 * (x * x + z * z) && a2 == 2.0 * (y * z - x * w)
    requires b0 == 2.0 * (x * y + z * w) && b1 == 1.0 - 2.0 * (x * x + z * z) && b2 == 2.0 * (y * z - x * w)
    requires n == w * w + x * x + y * y + z * z
    ensures Dot(a0, a1, a2, b0, b1, b2) == 1.0 + Product(4.0 * (x * x + z * z), n - 1.0)
  {
    Expanded11(w, x, y, z);
  }

  lemma RowProduct11(q: Quat)
    ensures var x, y, z, n := q.x, q.y, q.z, NormSquared(q);
      Dot3(RotationMatrix(q)[1], RotationMatrix(q)[1]) == 1.0 + Product(4.0 * (x * x + z * z), n - 1.0)
  {
    Gram11(M10(q), M11(q), M12(q), M10(q), M11(q), M12(q), q.w, q.x, q.y, q.z, NormSquared(q));
  }

  lemma Expanded22(w: real, x: real, y: real, z: real)
    ensures var n := w * w + x * x + y * y + z * z;
      Dot(2.0 * (x * z - y * w), 2.0 * (y * z + x * w), 1.0 - 2.0 * (x * x + y * y), 2.0 * (x * z - y * w), 2.0 * (y * z + x * w), 1.0 - 2.0 * (x * x + y * y)) == 1.0 + Product(4.0 * (x * x + y * y), n - 1.0)
  {
  }

  lemma Gram22(a0: real, a1: real, a2: real, b0: real, b1: real, b2: real, w: real, x: real, y: real, z: real, n: real)
    requires a0 == 2.0 * (x * z - y * w) && a1 == 2.0 * (y * z + x * w) && a2 == 1.0 - 2.0 * (x * x + y * y)
    requires b0 == 2.0 * (x * z - y * w) && b1 == 2.0 * (y * z + x * w) && b2 == 1.0 - 2.0 * (x * x + y * y)
    requires n == w * w + x * x + y * y + z * z
    ensures Dot(a0, a1, a2, b0, b1, b2) == 1.0 + Product(4.0 * (x * x + y * y), n - 1.0)
  {
    Expanded22(w, x, y, z);
  }

  lemma RowProduct22(q: Quat)
    ensures var x, y, z, n := q.x, q.y, q.z, NormSquared(q);
      Dot3(RotationMatrix(q)[2], RotationMatrix(q)[2]) == 1.0 + Product(4.0 * (x * x + y * y), n - 1.0)
  {
    Gram22(M20(q), M21(q), M22(q), M20(q), M21(q), M22(q), q.w, q.x, q.y, q.z, NormSquared(q));
  }

  lemma Expanded01(w: real, x: real, y: real, z: real)
    ensures var n := w * w + x * x + y * y + z * z;
      Dot(1.0 - 2.0 * (y * y + z * z), 2.0 * (x * y - z * w), 2.0 * (x * z + y * w), 2.0 * (x * y + z * w), 1.0 - 2.0 * (x * x + z * z), 2.0 * (y * z - x * w)) == Product(4.0 * x * y, 1.0 - n)
  {
  }

  lemma Gram01(a0: real, a1: real, a2: real, b0: real, b1: real, b2: real, w: real, x: real, y: real, z: real, n: real)
    requires a0 == 1.0 - 2.0 * (y * y + z * z) && a1 == 2.0 * (x * y - z * w) && a2 == 2.0 * (x * z + y * w)
    requires b0 == 2.0 * (x * y + z * w) && b1 == 1.0 - 2.0 * (x * x + z * z) && b2 == 2.0 * (y * z - x * w)
    requires n == w * w + x * x + y * y + z * z
    ensures Dot(a0, a1, a2, b0, b1, b2) == Product(4.0 * x * y, 1.0 - n)
  {
    Expanded01(w, x, y, z);
  }

  lemma RowProduct01(q: Quat)
    ensures var x, y, z, n := q.x, q.y, q.z, NormSquared(q);
      Dot3(RotationMatrix(q)[0], RotationMatrix(q)[1]) == Product(4.0 * x * y, 1.0 - n)
  {
    Gram01(M00(q), M01(q), M02(q), M10(q), M11(q), M12(q), q.w, q.x, q.y, q.z, NormSquared(q));
  }

  lemma Expanded02(w: real, x: real, y: real, z: real)
    ensures var n := w * w + x * x + y * y + z * z;
      Dot(1.0 - 2.0 * (y * y + z * z), 2.0 * (x * y - z * w), 2.0 * (x * z + y * w), 2.0 * (x * z - y * w), 2.0 * (y * z + x * w), 1.0 - 2.0 * (x * x + y * y)) == Product(4.0 * x * z, 1.0 - n)
  {
  }

  lemma Gram02(a0: real, a1: real, a2: real, b0: real, b1: real, b2: real, w: real, x: real, y: real, z: real, n: real)
    requires a0 == 1.0 - 2.0 * (y * y + z * z) && a1 == 2.0 * (x * y - z * w) && a2 == 2.0 * (x * z + y * w)
    requires b0 == 2.0 * (x * z - y * w) && b1 == 2.0 * (y * z + x * w) && b2 == 1.0 - 2.0 * (x * x + y * y)
    requires n == w * w + x * x + y * y + z * z
    ensures Dot(a0, a1, a2, b0, b1, b2) == Product(4.0 * x * z, 1.0 - n)
  {
    Expanded02(w, x, y, z);
  }

  lemma RowProduct02(q: Quat)
    ensures var x, y, z, n := q.x, q.y, q.z, NormSquared(q);
      Dot3(RotationMatrix(q)[0], RotationMatrix(q)[2]) == Product(4.0 * x * z, 1.0 - n)
  {
    Gram02(M00(q), M01(q), M02(q), M20(q), M21(q), M22(q), q.w, q.x, q.y, q.z, NormSquared(q));
  }

  lemma Expanded12(w: real, x: real, y: real, z: real)
    ensures var n := w * w + x * x + y * y + z * z;
      Dot(2.0 * (x * y + z * w), 1.0 - 2.0 * (x * x + z * z), 2.0 * (y * z - x * w), 2.0 * (x * z - y * w), 2.0 * (y * z + x * w), 1.0 - 2.0 * (x * x + y * y)) == Product(4.0 * y * z, 1.0 - n)
  {
  }

  lemma Gram12(a0: real, a1: real, a2: real, b0: real, b1: real, b2: real, w: real, x: real, y: real, z: real, n: real)
    requires a0 == 2.0 * (x * y + z * w) && a1 == 1.0 - 2.0 * (x * x + z * z) && a2 == 2.0 * (y * z - x * w)
    requires b0 == 2.0 * (x * z - y * w) && b1 == 2.0 * (y * z + x * w) && b2 == 1.0 - 2.0 * (x * x + y * y)
    requires n == w * w + x * x + y * y + z * z
    ensures Dot(a0, a1, a2, b0, b1, b2) == Product(4.0 * y * z, 1.0 - n)
  {
    Expanded12(w, x, y, z);
  }

  lemma RowProduct12(q: Quat)
    ensures var x, y, z, n := q.x, q.y, q.z, NormSquared(q);
      Dot3(RotationMatrix(q)[1], RotationMatrix(q)[2]) == Product(4.0 * y * z, 1.0 - n)
  {
    Gram12(M10(q), M11(q), M12(q), M20(q), M21(q), M22(q), q.w, q.x, q.y, q.z, NormSquared(q));
  }

  lemma ProductZeroRight(a: real)
    ensures Product(a, 0.0) == 0.0
  {
  }

  /** For a unit quaternion the upper-left 3x3 block is a rotation: its rows
      are orthonormal. */
  lemma UnitGivesOrthonormalRows(q: Quat)
    requires NormSquared(q) == 1.0
    ensures var r := RotationMatrix(q);
      forall i, j | 0 <= i < 3 && 0 <= j < 3 :: Dot3(r[i], r[j]) == if i == j then 1.0 else 0.0
  {
    RowProduct00(q);
    RowProduct11(q);
    RowProduct22(q);
    RowProduct01(q);
    RowProduct02(q);
    RowProduct12(q);
    ProductZeroRight(4.0 * (q.y * q.y + q.z * q.z));
    ProductZeroRight(4.0 * (q.x * q.x + q.z * q.z));
    ProductZeroRight(4.0 * (q.x * q.x + q.y * q.y));
    ProductZeroRight(4.0 * q.x * q.y);
    ProductZeroRight(4.0 * q.x * q.z);
    ProductZeroRight(4.0 * q.y * q.z);
    var r := RotationMatrix(q);
    forall i, j | 0 <= i < 3 && 0 <= j < 3
      ensures Dot3(r[i], r[j]) == if i == j then 1.0 else 0.0
    {
      assert Dot3(r[i], r[j]) == Dot3(r[j], r[i]);
    }
  }

  /** `np.clip(v, lo, hi)`. */
  function Clip(v: real, lo: real, hi: real): (r: real)
    requires lo <= hi
    ensures lo <= r <= hi
    ensures lo <= v <= hi ==> r == v
    ensures v < lo ==> r == lo
    ensures v > hi ==> r == hi
  {
    if v < lo then lo else if v > hi then hi else v
  }

  /** The arguments `to_euler_zyx` hands to `atan2` (yaw and roll) and, after
      clipping, to `asin` (pitch). */
  datatype EulerArguments = EulerArguments(yawY: real, yawX: real, pitch: real, rollY: real, rollX: real)

  function EulerArgs(q: Quat): (a: EulerArguments)
    ensures -1.0 <= a.pitch <= 1.0
  {
    var w, x, y, z := q.w, q.x, q.y, q.z;
    EulerArguments(2.0 * (w * z + x * y), 1.0 - 2.0 * (y * y + z * z),
                   Clip(2.0 * (w * y - z * x), -1.0, 1.0),
                   2.0 * (w * x + y * z), 1.0 - 2.0 * (x * x + y * y))
  }

  /** The Euler angles are read off the rotation matrix in the Z-Y-X
      convention: yaw from the first column's top two entries, roll from the
      bottom row's last two, pitch from minus the bottom-left entry. */
  lemma EulerArgsFromMatrix(q: Quat)
    ensures var a, r := EulerArgs(q), RotationMatrix(q);
      a.yawY == r[1][0] && a.yawX == r[0][0] &&
      a.rollY == r[2][1] && a.rollX == r[2][2] &&
      a.pitch == Clip(-r[2][0], -1.0, 1.0)
  {
  }

  lemma PitchBound(q: Quat)
    requires NormSquared(q) == 1.0
    ensures -1.0 <= 2.0 * (q.w * q.y - q.z * q.x) <= 1.0
  {
    SquareNonNegative(q.w - q.y);
    SquareNonNegative(q.w + q.y);
    SquareNonNegative(q.z - q.x);
    SquareNonNegative(q.z + q.x);
  }

  /** For a unit quaternion the pitch term already lies in [-1, 1]: the clamp
      only absorbs numerical drift. */
  lemma PitchUnclampedForUnit(q: Quat)
    requires NormSquared(q) == 1.0
    ensures var t := 2.0 * (q.w * q.y - q.z * q.x); -1.0 <= t <= 1.0 && EulerArgs(q).pitch == t
  {
    PitchBound(q);
  }

  /** The identity quaternion gives atan2 arguments (0, 1) for yaw and roll and
      the asin argument 0 for pitch. */
  lemma IdentityEulerArgs()
    ensures EulerArgs(IDENTITY) == EulerArguments(0.0, 1.0, 0.0, 0.0, 1.0)
  {
  }

  /** Yaw, pitch and roll, in this order. */
  datatype Angles = Angles(yaw: real, pitch: real, roll: real)

  /** `np.degrees`. */
  function Degrees(a: real): real { a * 180.0 / PI }

  /** `to_euler_zyx(degrees)`. */
  function ToEulerZyx(q: Quat, degrees: bool, math: Math): Angles {
    var a := EulerArgs(q);
    var radians := Angles(math.atan2(a.yawY, a.yawX), math.asin(a.pitch), math.atan2(a.rollY, a.rollX));
    if degrees then Angles(Degrees(radians.yaw), Degrees(radians.pitch), Degrees(radians.roll))
    else radians
  }

  /** The angles of the initial orientation. */
  lemma IdentityAngles(math: Math)
    ensures ToEulerZyx(IDENTITY, false, math) ==
      Angles(math.atan2(0.0, 1.0), math.asin(0.0), math.atan2(0.0, 1.0))
  {
    IdentityEulerArgs();
  }

  /** In degrees, each angle is its radian value times 180 / pi. */
  lemma DegreesScale(q: Quat, math: Math)
    ensures var d, r := ToEulerZyx(q, true, math), ToEulerZyx(q, false, math);
      d.yaw * PI == r.yaw * 180.0 && d.pitch * PI == r.pitch * 180.0 && d.roll * PI == r.roll * 180.0
  {
  }
}
