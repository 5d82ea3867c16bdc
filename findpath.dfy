/** findPath of turtlesoup.ts: the instructions that walk a turtle through a
    list of waypoints, computed on local copies of its position and heading. */
module PathFinding {
  import opened Geometry
  import opened Turtles

  /** The value findPath prints after "turn": the bearing to `target`, minus
      the current heading, plus 360, reduced with JavaScript's `% 360`. */
  function TurnAngle(m: Numerics, pos: Point, heading: real, target: Point): (r: real)
    ensures -360.0 < r < 360.0
  {
    JsRem360(Bearing(m, pos, target) - heading + 360.0)
  }

  function TurnInstruction(m: Numerics, angle: real): string {
    "turn " + m.fixed2(angle)
  }

  function ForwardInstruction(m: Numerics, length: real): string {
    "forward " + m.fixed2(length)
  }

  /** The instructions findPath returns when it starts at `pos` facing `heading`:
      for each waypoint a turn and a forward instruction, after which the
      simulated turtle stands on the waypoint facing along the bearing it took. */
  function Instructions(m: Numerics, pos: Point, heading: real, points: seq<Point>): (r: seq<string>)
    ensures |r| == 2 * |points|
    decreases |points|
  {
    if points == [] then []
    else
      var target := points[0];
      [TurnInstruction(m, TurnAngle(m, pos, heading, target)), ForwardInstruction(m, Distance(m, pos, target))]
        + Instructions(m, target, Bearing(m, pos, target), points[1..])
  }

  /** Where the simulated turtle stands before waypoint `i`: the start, or the previous waypoint. */
  function From(pos: Point, points: seq<Point>, i: nat): Point
    requires i <= |points|
  {
    if i == 0 then pos else points[i - 1]
  }

  /** The simulated heading before waypoint `i`: the start heading, or the
      bearing of the previous leg. */
  function HeadingBefore(m: Numerics, pos: Point, heading: real, points: seq<Point>, i: nat): real
    requires i <= |points|
  {
    if i == 0 then heading else Bearing(m, From(pos, points, i - 1), points[i - 1])
  }

  /** Proof step for FindPath: `Instructions` unfolded once on a suffix. */
  lemma InstructionsUnfold(m: Numerics, pos: Point, heading: real, points: seq<Point>, i: nat)
    requires i < |points|
    ensures Instructions(m, pos, heading, points[i..]) ==
      [TurnInstruction(m, TurnAngle(m, pos, heading, points[i])), ForwardInstruction(m, Distance(m, pos, points[i]))]
        + Instructions(m, points[i], Bearing(m, pos, points[i]), points[i + 1..])
  {
  }

  /** Instruction 2i turns towards waypoint i and instruction 2i + 1 covers
      the distance to it, both measured from where the previous leg ended. */
  lemma {:induction false} InstructionPair(m: Numerics, pos: Point, heading: real, points: seq<Point>, i: nat)
    requires i < |points|
    ensures Instructions(m, pos, heading, points)[2 * i] ==
      TurnInstruction(m, TurnAngle(m, From(pos, points, i), HeadingBefore(m, pos, heading, points, i), points[i]))
    ensures Instructions(m, pos, heading, points)[2 * i + 1] ==
      ForwardInstruction(m, Distance(m, From(pos, points, i), points[i]))
    decreases i
  {
    if i > 0 {
      var target := points[0];
      var rest := points[1..];
      var h := Bearing(m, pos, target);
      InstructionPair(m, target, h, rest, i - 1);
      var r := Instructions(m, pos, heading, points);
      var tail := Instructions(m, target, h, rest);
      assert r == r[..2] + tail;
      assert r[2 * i] == tail[2 * (i - 1)];
      assert r[2 * i + 1] == tail[2 * (i - 1) + 1];
      assert From(pos, points, i) == From(target, rest, i - 1);
      if i > 1 {
        assert From(pos, points, i - 1) == From(target, rest, i - 2);
      }
      assert HeadingBefore(m, pos, heading, points, i) == HeadingBefore(m, target, h, rest, i - 1);
    }
  }

  /** The whole list, position by position. */
  lemma InstructionsAt(m: Numerics, pos: Point, heading: real, points: seq<Point>)
    ensures forall i :: 0 <= i < |points| ==>
      Instructions(m, pos, heading, points)[2 * i] ==
        TurnInstruction(m, TurnAngle(m, From(pos, points, i), HeadingBefore(m, pos, heading, points, i), points[i]))
    ensures forall i :: 0 <= i < |points| ==>
      Instructions(m, pos, heading, points)[2 * i + 1] ==
        ForwardInstruction(m, Distance(m, From(pos, points, i), points[i]))
  {
    forall i | 0 <= i < |points| {
      InstructionPair(m, pos, heading, points, i);
    }
  }

  /** The instructions alternate: even positions are "turn ..." and odd ones "forward ...". */
  lemma Alternating(m: Numerics, pos: Point, heading: real, points: seq<Point>)
    ensures forall i :: 0 <= i < |points| ==> "turn " <= Instructions(m, pos, heading, points)[2 * i]
    ensures forall i :: 0 <= i < |points| ==> "forward " <= Instructions(m, pos, heading, points)[2 * i + 1]
  {
    InstructionsAt(m, pos, heading, points);
    forall i | 0 <= i < |points|
      ensures "turn " <= Instructions(m, pos, heading, points)[2 * i]
      ensures "forward " <= Instructions(m, pos, heading, points)[2 * i + 1]
    {
      var t := TurnAngle(m, From(pos, points, i), HeadingBefore(m, pos, heading, points, i), points[i]);
      var d := Distance(m, From(pos, points, i), points[i]);
      assert "turn " <= "turn " + m.fixed2(t);
      assert "forward " <= "forward " + m.fixed2(d);
    }
  }

  /** Every later leg starts from a bearing, so when atan2 stays within
      (-PI, PI] its turn value lies in [0, 360). */
  lemma LaterTurnsInRange(m: Numerics, pos: Point, heading: real, points: seq<Point>, i: nat)
    requires AtanInRange(m) && 0 < i < |points|
    ensures 0.0 <= TurnAngle(m, From(pos, points, i), HeadingBefore(m, pos, heading, points, i), points[i]) < 360.0
  {
  }

  /** The first turn value lies in [0, 360) as well when the turtle's heading
      is at most 180 degrees. */
  lemma FirstTurnInRange(m: Numerics, pos: Point, heading: real, target: Point)
    requires AtanInRange(m) && heading <= 180.0
    ensures 0.0 <= TurnAngle(m, pos, heading, target) < 360.0
  {
  }

  /** JavaScript's `%` keeps the sign of the dividend, so if the turtle's heading
      is not reduced modulo 360 (the modelled turtle's is not; it reaches 810
      after drawPersonalArt on a fresh turtle), then from a heading of 540
      degrees or more the first turn value is zero or negative, never in (0, 360). */
  lemma FirstTurnFromWoundHeading(m: Numerics, pos: Point, heading: real, target: Point)
    requires AtanInRange(m) && heading >= 540.0
    ensures -360.0 < TurnAngle(m, pos, heading, target) <= 0.0
  {
  }

  /** From (0, 0) facing 0 degrees to the single waypoint (10, 0), findPath
      returns ["turn 0.00", "forward 10.00"], given that atan2(0, 10) is 0,
      the square root of 100 is 10, and toFixed(2) prints 0 and 10 as usual. */
  lemma StraightAhead(m: Numerics)
    requires m.atan2(0.0, 10.0) == 0.0 && m.sqrt(100.0) == 10.0
    requires m.fixed2(0.0) == "0.00" && m.fixed2(10.0) == "10.00"
    ensures Instructions(m, Point(0.0, 0.0), 0.0, [Point(10.0, 0.0)]) == ["turn 0.00", "forward 10.00"]
  {
    var o, p := Point(0.0, 0.0), Point(10.0, 0.0);
    assert Bearing(m, o, p) == 0.0;
    assert TurnAngle(m, o, 0.0, p) == JsRem360(360.0) == 0.0;
    assert TurnInstruction(m, 0.0) == "turn 0.00";
    assert SquaredDistance(o, p) == 100.0;
    assert Distance(m, o, p) == 10.0;
    assert ForwardInstruction(m, 10.0) == "forward 10.00";
    assert [p][1..] == [];
  }

  lemma PushTwo(done: seq<string>, a: string, b: string, later: seq<string>)
    ensures done + ([a, b] + later) == done + [a] + [b] + later
  {
  }

  /** findPath: reads the turtle's position and heading once, then walks the
      waypoints on local copies, emitting a turn and a forward instruction for
      each. The turtle is not modified. */
  method FindPath(t: Turtle, points: seq<Point>) returns (instructions: seq<string>)
    ensures instructions == Instructions(t.math, t.position, t.heading, points)
    ensures |instructions| == 2 * |points|
    ensures forall i :: 0 <= i < |points| ==>
      instructions[2 * i] ==
        TurnInstruction(t.math, TurnAngle(t.math, From(t.position, points, i), HeadingBefore(t.math, t.position, t.heading, points, i), points[i]))
    ensures forall i :: 0 <= i < |points| ==>
      instructions[2 * i + 1] == ForwardInstruction(t.math, Distance(t.math, From(t.position, points, i), points[i]))
  {
    var m := t.math;
    instructions := [];
    var currentPosition := t.GetPosition();
    var currentHeading := t.GetHeading();
    ghost var goal := Instructions(m, currentPosition, currentHeading, points);
    for i := 0 to |points|
      invariant instructions + Instructions(m, currentPosition, currentHeading, points[i..]) == goal
    {
      var target := points[i];
      var targetAngle := Bearing(m, currentPosition, target);
      var turnAngle := TurnAngle(m, currentPosition, currentHeading, target);
      InstructionsUnfold(m, currentPosition, currentHeading, points, i);
      var turn := TurnInstruction(m, turnAngle);
      var forward := ForwardInstruction(m, Distance(m, currentPosition, target));
      PushTwo(instructions, turn, forward, Instructions(m, target, targetAngle, points[i + 1..]));
      instructions := instructions + [turn];
      instructions := instructions + [forward];
      currentPosition := target;
      currentHeading := targetAngle;
    }
    assert points[|points|..] == [];
    assert instructions + [] == instructions;
    InstructionsAt(m, t.position, t.heading, points);
  }
}
