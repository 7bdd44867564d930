/** Measurement and calibration records (src/utils/measure.py; the same
    classes are repeated in sphere_app.py). */
module Measure {

  datatype Vec3 = Vec3(x: real, y: real, z: real)

  /** One sensor sample: magnetometer and accelerometer triples, stored as given. */
  datatype Measurement = Measurement(mag: Vec3, acc: Vec3)

  datatype Triple = Triple(x: int, y: int, z: int)

  /** The four fields of a calibration, as a value. */
  datatype CalibrationValue = CalibrationValue(isConstant: bool, center: Triple, scale: Triple, radius: int)

  /** The argument of `__eq__` or `update`: a dynamically typed Python value,
      which may or may not be a Calibration. */
  datatype PyValue = CalibrationRef(cal: Calibration) | PyNone | OtherObject {
    function Objects(): set<object> {
      if CalibrationRef? then {cal} else {}
    }
  }

  /** The result of `__eq__`: a boolean, or Python's NotImplemented singleton. */
  datatype EqResult = Bool(b: bool) | NotImplemented

  class Calibration {
    var isConstant: bool
    var center: Triple
    var scale: Triple
    var radius: int

    function Value(): CalibrationValue
      reads this
    {
      CalibrationValue(isConstant, center, scale, radius)
    }

    constructor (isConstant: bool, center: Triple, scale: Triple, radius: int)
      ensures Value() == CalibrationValue(isConstant, center, scale, radius)
    {
      this.isConstant := isConstant;
      this.center := center;
      this.scale := scale;
      this.radius := radius;
    }

    /** `__eq__`: field-wise comparison with another Calibration; any other
        argument gives NotImplemented. */
    function Eq(other: PyValue): (r: EqResult)
      reads this, other.Objects()
      ensures other.CalibrationRef? <==> r.Bool?
      ensures other.CalibrationRef? ==> (r.b <==> Value() == other.cal.Value())
    {
      match other
      case CalibrationRef(c) =>
        Bool(isConstant == c.isConstant && center == c.center && scale == c.scale && radius == c.radius)
      case _ => NotImplemented
    }

    /** `update`: copies all four fields of another Calibration into this one;
        any other argument leaves this object as it was. */
    method Update(other: PyValue)
      modifies this
      ensures other.CalibrationRef? ==> Value() == old(other.cal.Value())
      ensures !other.CalibrationRef? ==> Value() == old(Value())
      ensures other.CalibrationRef? ==> Eq(other) == Bool(true)
      ensures other == CalibrationRef(this) ==> Value() == old(Value())
    {
      if !other.CalibrationRef? {
        return;
      }
      var c := other.cal;
      isConstant, center, scale, radius := c.isConstant, c.center, c.scale, c.radius;
    }
  }

  /** Python's `a != b` for a Calibration `a`: the negation of `__eq__`, and,
      when `__eq__` answers NotImplemented (the reflected `__ne__` of None or of a
      plain object does too), the identity test `a is not b`, which is true since
      `b` is not a Calibration. */
  function NotEqual(a: Calibration, b: PyValue): (r: bool)
    reads a, b.Objects()
    ensures b.CalibrationRef? ==> (r <==> a.Value() != b.cal.Value())
    ensures !b.CalibrationRef? ==> r
  {
    match a.Eq(b)
    case Bool(eq) => !eq
    case NotImplemented => true
  }

  /** `__eq__` is an equivalence on calibrations. */
  lemma EqIsEquivalence(a: Calibration, b: Calibration, c: Calibration)
    ensures a.Eq(CalibrationRef(a)) == Bool(true)
    ensures a.Eq(CalibrationRef(b)) == b.Eq(CalibrationRef(a))
    ensures a.Eq(CalibrationRef(b)) == Bool(true) && b.Eq(CalibrationRef(c)) == Bool(true)
            ==> a.Eq(CalibrationRef(c)) == Bool(true)
  {
  }

  /** Any single differing field makes two calibrations unequal. */
  lemma OneFieldDiffers(a: Calibration, b: Calibration)
    requires a.isConstant != b.isConstant || a.center != b.center || a.scale != b.scale || a.radius != b.radius
    ensures a.Eq(CalibrationRef(b)) == Bool(false)
    ensures NotEqual(a, CalibrationRef(b))
  {
  }
}
