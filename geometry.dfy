/** Points, the JavaScript numeric primitives the drawing code relies on, and the
    two closed formulas of turtlesoup.ts: chordLength and distance.

    The numeric primitives are not given a meaning: they are the fields of a
    `Numerics` value that every caller passes along, so every property proved
    below holds whatever those primitives compute, unless a lemma states a
    hypothesis about them explicitly. */
module Geometry {

  /** A point of the drawing plane. */
  datatype Point = Point(x: real, y: real)

  /** The JavaScript primitives used by the drawing code, left uninterpreted. */
  datatype Numerics = Numerics(
    sin: real -> real,          // Math.sin
    cos: real -> real,          // Math.cos
    atan2: (real, real) -> real, // Math.atan2(y, x)
    sqrt: real -> real,         // Math.sqrt
    round10: real -> real,      // v => Number(v.toFixed(10))
    fixed2: real -> string)     // v => v.toFixed(2)

  /** Math.PI, written as JavaScript prints it. */
  const PI: real := 3.141592653589793

  /** Degrees to radians, as `(angleInDegrees * Math.PI) / 180`. */
  function Radians(degrees: real): real {
    (degrees * PI) / 180.0
  }

  /** Length of the chord under `angleInDegrees` on a circle of `radius`,
      rounded to ten decimals: `Number((2 * r * Math.sin(rad / 2)).toFixed(10))`. */
  function ChordLength(m: Numerics, radius: real, angleInDegrees: real): (r: real)
    ensures radius == 0.0 && m.round10(0.0) == 0.0 ==> r == 0.0
  {
    var product := 2.0 * radius * m.sin(Radians(angleInDegrees) / 2.0);
    assert radius == 0.0 ==> product == 0.0;
    m.round10(product)
  }

  /** A zero angle or a zero radius gives a zero chord, given that sine and the
      rounding both map zero to zero. */
  lemma ChordLengthDegenerate(m: Numerics, radius: real, angleInDegrees: real)
    requires m.sin(0.0) == 0.0 && m.round10(0.0) == 0.0
    ensures ChordLength(m, radius, 0.0) == 0.0
    ensures ChordLength(m, 0.0, angleInDegrees) == 0.0
  {
  }

  function Square(v: real): real { v * v }

  lemma SquareNonNegative(v: real)
    ensures Square(v) >= 0.0
  {
    if v < 0.0 {
      assert Square(v) == (-v) * (-v);
    }
  }

  /** The quantity under the square root in `distance`: `(x2 - x1) ** 2 + (y2 - y1) ** 2`. */
  function SquaredDistance(p1: Point, p2: Point): real {
    Square(p2.x - p1.x) + Square(p2.y - p1.y)
  }

  /** Euclidean distance, `Math.sqrt((p2.x - p1.x) ** 2 + (p2.y - p1.y) ** 2)`. */
  function Distance(m: Numerics, p1: Point, p2: Point): (r: real)
    ensures r == m.sqrt(SquaredDistance(p2, p1))
  {
    SquaredDistanceProperties(p1, p2);
    m.sqrt(SquaredDistance(p1, p2))
  }

  /** The squared distance is non-negative, symmetric, and zero from a point to itself. */
  lemma SquaredDistanceProperties(p1: Point, p2: Point)
    ensures SquaredDistance(p1, p2) >= 0.0
    ensures SquaredDistance(p1, p2) == SquaredDistance(p2, p1)
    ensures SquaredDistance(p1, p1) == 0.0
  {
    SquareNonNegative(p2.x - p1.x);
    SquareNonNegative(p2.y - p1.y);
    assert Square(p1.x - p2.x) == Square(p2.x - p1.x);
    assert Square(p1.y - p2.y) == Square(p2.y - p1.y);
  }

  /** distance is symmetric, and a point's distance to itself is `Math.sqrt(0)`,
      whichever square root is used; with a square root that is non-negative
      on non-negative inputs the distance is non-negative. */
  lemma DistanceProperties(m: Numerics, p1: Point, p2: Point)
    ensures Distance(m, p1, p2) == Distance(m, p2, p1)
    ensures Distance(m, p1, p1) == m.sqrt(0.0)
    ensures (forall v :: v >= 0.0 ==> m.sqrt(v) >= 0.0) ==> Distance(m, p1, p2) >= 0.0
  {
    SquaredDistanceProperties(p1, p2);
    SquaredDistanceProperties(p1, p1);
  }

  /** Math.atan2 returns an angle in (-PI, PI]. */
  ghost predicate AtanInRange(m: Numerics) {
    forall y, x :: -PI < m.atan2(y, x) <= PI
  }

  /** The bearing from one point to another in degrees,
      `(Math.atan2(dy, dx) * 180) / Math.PI`; within (-180, 180] when atan2 is in range. */
  function Bearing(m: Numerics, from: Point, to: Point): (b: real)
    ensures AtanInRange(m) ==> -180.0 < b <= 180.0
  {
    (m.atan2(to.y - from.y, to.x - from.x) * 180.0) / PI
  }

  /** JavaScript's truncating integer part of a real. */
  function Trunc(v: real): int {
    if v >= 0.0 then v.Floor else -((-v).Floor)
  }

  /** JavaScript's `a % 360` on numbers: the remainder takes the sign of the
      dividend, unlike Dafny's Euclidean `%`. */
  function JsRem360(a: real): (r: real)
    ensures a >= 0.0 ==> 0.0 <= r < 360.0
    ensures a <= 0.0 ==> -360.0 < r <= 0.0
    ensures -360.0 < a < 360.0 ==> r == a
    ensures 360.0 <= a < 720.0 ==> r == a - 360.0
    ensures -720.0 < a <= -360.0 ==> r == a + 360.0
  {
    var q := a / 360.0;
    var k := Trunc(q);
    if a >= 0.0 then
      assert k as real <= q < k as real + 1.0;
      a - 360.0 * k as real
    else
      assert -(k as real) <= -q < -(k as real) + 1.0;
      a - 360.0 * k as real
  }
}
