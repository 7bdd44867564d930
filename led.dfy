/** The compass display of the firmware (microbit-firmware/src/led.rs): the
    angle of the magnetic field picks one of eight directions, and each
    direction has a fixed 5x5 LED pattern.

    The angle is an f32 in the firmware; here it is any real. The sector
    limits `k * PI / 8` are folded by the compiler in single precision:
    `k * PI` is rounded to the nearest f32 (PI being the f32 13176795 / 2^22)
    and the division by 8 is exact. The constants below are those values,
    written out exactly. */
module Led {

  datatype Direction = North | NorthEast | East | SouthEast | South | SouthWest | West | NorthWest

  /** `PI / 8.`, `3. * PI / 8.`, `5. * PI / 8.` and `7. * PI / 8.` in f32. */
  const PI_8: real := 13176795.0 / 33554432.0
  const PI3_8: real := 39530384.0 / 33554432.0
  const PI5_8: real := 65883976.0 / 33554432.0
  const PI7_8: real := 92237568.0 / 33554432.0

  /** The f32 value of PI / 2. */
  const HALF_PI: real := 13176795.0 / 8388608.0

  /** `dir_from_theta`: the first limit the angle lies strictly below decides
      the direction; at or above the last limit it is West again. */
  function DirFromTheta(theta: real): Direction {
    if theta < -PI7_8 then West
    else if theta < -PI5_8 then SouthWest
    else if theta < -PI3_8 then South
    else if theta < -PI_8 then SouthEast
    else if theta < PI_8 then East
    else if theta < PI3_8 then NorthEast
    else if theta < PI5_8 then North
    else if theta < PI7_8 then NorthWest
    else West
  }

  /** The eight limits, in increasing order, and the nine sectors they cut the
      real line into, from the lowest upward. */
  const LIMITS: seq<real> := [-PI7_8, -PI5_8, -PI3_8, -PI_8, PI_8, PI3_8, PI5_8, PI7_8]
  const SECTORS: seq<Direction> := [West, SouthWest, South, SouthEast, East, NorthEast, North, NorthWest, West]

  /** Sector `k` is the half-open interval from limit `k - 1` (inclusive) up to
      limit `k` (exclusive); the first and the last are unbounded. */
  predicate InSector(theta: real, k: nat)
    requires k <= 8
  {
    (k == 0 || LIMITS[k - 1] <= theta) && (k == 8 || theta < LIMITS[k])
  }

  lemma LimitsIncrease(i: nat, j: nat)
    requires i < j < 8
    ensures LIMITS[i] < LIMITS[j]
  {
  }

  /** Every angle lies in some sector. */
  lemma SomeSector(theta: real) returns (k: nat)
    ensures k <= 8 && InSector(theta, k)
  {
    k := 0;
    while k < 8 && LIMITS[k] <= theta
      invariant k <= 8
      invariant k == 0 || LIMITS[k - 1] <= theta
      decreases 8 - k
    {
      k := k + 1;
    }
  }

  /** No angle lies in two sectors. */
  lemma SectorsDisjoint(theta: real, j: nat, k: nat)
    requires j < k <= 8
    ensures !(InSector(theta, j) && InSector(theta, k))
  {
    if j < k - 1 {
      LimitsIncrease(j, k - 1);
    }
  }

  /** `dir_from_theta` gives each angle the direction of its sector: the
      sectors, from below -7pi/8 upward, are West, SouthWest, South,
      SouthEast, East, NorthEast, North, NorthWest and West again. */
  lemma DirectionOfSector(theta: real, k: nat)
    requires k <= 8 && InSector(theta, k)
    ensures DirFromTheta(theta) == SECTORS[k]
  {
  }

  /** So a direction is returned exactly for the angles of its sectors. */
  lemma DirectionIff(theta: real, d: Direction)
    ensures DirFromTheta(theta) == d <==> exists k | 0 <= k <= 8 :: InSector(theta, k) && SECTORS[k] == d
  {
    var k := SomeSector(theta);
    DirectionOfSector(theta, k);
    forall j | 0 <= j <= 8 && InSector(theta, j) ensures SECTORS[j] == SECTORS[k] {
      if j < k {
        SectorsDisjoint(theta, j, k);
      } else if k < j {
        SectorsDisjoint(theta, k, j);
      }
    }
  }

  /** West covers both ends: below -7pi/8 and from 7pi/8 on. */
  lemma WestAtBothEnds(theta: real)
    ensures DirFromTheta(theta) == West <==> theta < -PI7_8 || theta >= PI7_8
  {
  }

  /** The comparisons are strict, so a limit belongs to the sector above it. */
  lemma LimitsBelongAbove()
    ensures DirFromTheta(-PI7_8) == SouthWest && DirFromTheta(-PI5_8) == South
    ensures DirFromTheta(-PI3_8) == SouthEast && DirFromTheta(-PI_8) == East
    ensures DirFromTheta(PI_8) == NorthEast && DirFromTheta(PI3_8) == North
    ensures DirFromTheta(PI5_8) == NorthWest && DirFromTheta(PI7_8) == West
  {
  }

  /** A field along +x points East, along +y North. */
  lemma CardinalAngles()
    ensures DirFromTheta(0.0) == East && DirFromTheta(HALF_PI) == North
  {
  }

  /** A 5x5 LED pattern, rows from top to bottom; 1 is a lit LED. */
  type Pattern = seq<seq<int>>

  const NORTH: Pattern := [[0, 0, 1, 0, 0], [0, 1, 1, 1, 0], [1, 0, 1, 0, 1], [0, 0, 1, 0, 0], [0, 0, 1, 0, 0]]
  const NORTH_EAST: Pattern := [[1, 1, 1, 0, 0], [1, 1, 0, 0, 0], [1, 0, 1, 0, 0], [0, 0, 0, 1, 0], [0, 0, 0, 0, 1]]
  const EAST: Pattern := [[0, 0, 1, 0, 0], [0, 1, 0, 0, 0], [1, 1, 1, 1, 1], [0, 1, 0, 0, 0], [0, 0, 1, 0, 0]]
  const SOUTH_EAST: Pattern := [[0, 0, 0, 0, 1], [0, 0, 0, 1, 0], [1, 0, 1, 0, 0], [1, 1, 0, 0, 0], [1, 1, 1, 0, 0]]
  const SOUTH: Pattern := [[0, 0, 1, 0, 0], [0, 0, 1, 0, 0], [1, 0, 1, 0, 1], [0, 1, 1, 1, 0], [0, 0, 1, 0, 0]]
  const SOUTH_WEST: Pattern := [[1, 0, 0, 0, 0], [0, 1, 0, 0, 0], [0, 0, 1, 0, 1], [0, 0, 0, 1, 1], [0, 0, 1, 1, 1]]
  const WEST: Pattern := [[0, 0, 1, 0, 0], [0, 0, 0, 1, 0], [1, 1, 1, 1, 1], [0, 0, 0, 1, 0], [0, 0, 1, 0, 0]]
  const NORTH_WEST: Pattern := [[0, 0, 1, 1, 1], [0, 0, 0, 1, 1], [0, 0, 1, 0, 1], [0, 1, 0, 0, 0], [1, 0, 0, 0, 0]]

  /** A pattern the display can show: 5 rows of 5 entries, each 0 or 1. */
  predicate WellFormed(p: Pattern) {
    |p| == 5 && forall i | 0 <= i < 5 :: |p[i]| == 5 && forall j | 0 <= j < 5 :: p[i][j] == 0 || p[i][j] == 1
  }

  /** `direction_to_led`. */
  function DirectionToLed(d: Direction): (p: Pattern)
    ensures WellFormed(p)
  {
    match d
    case North => NORTH
    case NorthEast => NORTH_EAST
    case East => EAST
    case SouthEast => SOUTH_EAST
    case South => SOUTH
    case SouthWest => SOUTH_WEST
    case West => WEST
    case NorthWest => NORTH_WEST
  }

  /** Reads the direction back from a few LEDs of the top two rows. */
  function Decode(p: Pattern): Direction
    requires WellFormed(p)
  {
    if p[0][0] == 1 then (if p[0][1] == 1 then NorthEast else SouthWest)
    else if p[0][4] == 1 then (if p[0][3] == 1 then NorthWest else SouthEast)
    else if p[1][1] == 1 then (if p[1][3] == 1 then North else East)
    else if p[1][3] == 1 then West
    else South
  }

  /** Every pattern tells its direction, so distinct directions show distinct
      patterns. */
  lemma DecodePattern(d: Direction)
    ensures Decode(DirectionToLed(d)) == d
  {
  }

  lemma PatternsDistinct(d: Direction, e: Direction)
    requires d != e
    ensures DirectionToLed(d) != DirectionToLed(e)
  {
    DecodePattern(d);
    DecodePattern(e);
  }

  /** The pattern upside down: rows in reverse order. */
  function Flip(p: Pattern): (r: Pattern)
    ensures |r| == |p| && forall i | 0 <= i < |p| :: r[i] == p[|p| - 1 - i]
  {
    seq(|p|, i requires 0 <= i < |p| => p[|p| - 1 - i])
  }

  function Reverse(row: seq<int>): (r: seq<int>)
    ensures |r| == |row| && forall j | 0 <= j < |row| :: r[j] == row[|row| - 1 - j]
  {
    seq(|row|, j requires 0 <= j < |row| => row[|row| - 1 - j])
  }

  /** The pattern left to right: each row reversed. */
  function Mirror(p: Pattern): (r: Pattern)
    ensures |r| == |p| && forall i | 0 <= i < |p| :: r[i] == Reverse(p[i])
  {
    seq(|p|, i requires 0 <= i < |p| => Reverse(p[i]))
  }

  /** SOUTH is NORTH upside down, and WEST is EAST mirrored. */
  lemma SouthIsFlippedNorth()
    ensures SOUTH == Flip(NORTH)
  {
  }

  lemma WestIsMirroredEast()
    ensures WEST == Mirror(EAST)
  {
    var m := Mirror(EAST);
    forall i | 0 <= i < 5 ensures m[i] == WEST[i] {
      assert m[i] == Reverse(EAST[i]);
    }
  }

  /** The direction opposite on the compass. */
  function Opposite(d: Direction): Direction {
    match d
    case North => South
    case NorthEast => SouthWest
    case East => West
    case SouthEast => NorthWest
    case South => North
    case SouthWest => NorthEast
    case West => East
    case NorthWest => SouthEast
  }

  /** A pattern whose every LED is that of `p` at the point opposite the
      centre is `p` turned half a turn. */
  lemma HalfTurn(p: Pattern, q: Pattern)
    requires WellFormed(p) && WellFormed(q)
    requires forall i, j | 0 <= i < 5 && 0 <= j < 5 :: q[i][j] == p[4 - i][4 - j]
    ensures q == Mirror(Flip(p))
  {
    var r := Mirror(Flip(p));
    forall i | 0 <= i < 5 ensures r[i] == q[i] {
      assert r[i] == Reverse(p[4 - i]);
    }
  }

  /** Every arrow's opposite is the same arrow turned half a turn. */
  lemma OppositeIsHalfTurn(d: Direction)
    ensures DirectionToLed(Opposite(d)) == Mirror(Flip(DirectionToLed(d)))
  {
    HalfTurn(DirectionToLed(d), DirectionToLed(Opposite(d)));
  }
}
