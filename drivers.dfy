/** The three drawing routines of turtlesoup.ts (drawSquare, drawApproximateCircle,
    drawPersonalArt), each proved to append exactly its command sequence to the
    turtle's trace, and the consequences for heading, path and pen colour. */
module Drivers {
  import opened Geometry
  import opened Turtles

  /** `n` repetitions of the pair `forward(step); turn(angle)`. */
  function Laps(step: real, angle: real, n: nat): (cmds: seq<Cmd>)
    ensures |cmds| == 2 * n
    ensures forall i :: 0 <= i < |cmds| ==> cmds[i] == if i % 2 == 0 then Forward(step) else Turn(angle)
    decreases n
  {
    if n == 0 then [] else Laps(step, angle, n - 1) + [Forward(step), Turn(angle)]
  }

  /** Laps draw one segment per lap, and turn by `n * angle` in all. */
  lemma {:induction false} LapsCounts(step: real, angle: real, n: nat)
    ensures ForwardCount(Laps(step, angle, n)) == n
    ensures TurnTotal(Laps(step, angle, n)) == n as real * angle
    decreases n
  {
    if n > 0 {
      var prev := Laps(step, angle, n - 1);
      LapsCounts(step, angle, n - 1);
      CountsConcat(prev, [Forward(step), Turn(angle)]);
      CountsConcat([Forward(step)], [Turn(angle)]);
      CountsOne(Forward(step));
      CountsOne(Turn(angle));
      assert (n - 1) as real * angle + angle == n as real * angle;
    }
  }

  /** What drawSquare appends: four times `forward(sideLength); turn(90)`. */
  function SquareCmds(sideLength: real): seq<Cmd> {
    Laps(sideLength, 90.0, 4)
  }

  /** What drawApproximateCircle appends: nothing when numSides is not positive,
      otherwise numSides laps of one chord and one exterior angle. */
  function CircleCmds(m: Numerics, radius: real, numSides: int): seq<Cmd> {
    if numSides <= 0 then []
    else
      var angle := 360.0 / numSides as real;
      Laps(ChordLength(m, radius, angle), angle, numSides)
  }

  /** A regular polygon closes its heading: the angles add up to one full turn. */
  lemma CircleTurnsOnce(m: Numerics, radius: real, numSides: int)
    requires numSides > 0
    ensures TurnTotal(CircleCmds(m, radius, numSides)) == 360.0
    ensures ForwardCount(CircleCmds(m, radius, numSides)) == numSides
  {
    var angle := 360.0 / numSides as real;
    LapsCounts(ChordLength(m, radius, angle), angle, numSides);
    assert numSides as real * angle == 360.0;
  }

  /** One group of drawPersonalArt: `color(c); forward(length); turn(angle)`. */
  datatype Stroke = Stroke(color: string, length: real, angle: real)

  /** The sixteen groups of drawPersonalArt, in order. */
  const ArtStrokes: seq<Stroke> := [
    Stroke("blue", 120.0, 45.0), Stroke("red", 20.0, 30.0), Stroke("green", 55.0, 60.0),
    Stroke("purple", 10.0, 75.0), Stroke("yellow", 20.0, 20.0), Stroke("cyan", 30.0, 90.0),
    Stroke("orange", 100.0, 50.0), Stroke("black", 25.0, 35.0), Stroke("blue", 20.0, 45.0),
    Stroke("red", 80.0, 30.0), Stroke("green", 95.0, 60.0), Stroke("purple", 110.0, 75.0),
    Stroke("yellow", 70.0, 20.0), Stroke("cyan", 130.0, 90.0), Stroke("orange", 100.0, 50.0),
    Stroke("black", 85.0, 35.0)]

  function StrokeCmds(st: Stroke): seq<Cmd> {
    [Color(st.color), Forward(st.length), Turn(st.angle)]
  }

  /** The commands of the first `k` strokes of `sts`: one Color, Forward, Turn triple each. */
  function Strokes(sts: seq<Stroke>, k: nat): seq<Cmd>
    requires k <= |sts|
    decreases k
  {
    if k == 0 then [] else Strokes(sts, k - 1) + StrokeCmds(sts[k - 1])
  }

  /** What drawPersonalArt appends. */
  function ArtCmds(): seq<Cmd> {
    Strokes(ArtStrokes, 16)
  }

  /** The commands of stroke `j` sit at positions 3j, 3j + 1 and 3j + 2. */
  lemma {:induction false} StrokesAt(sts: seq<Stroke>, k: nat)
    requires k <= |sts|
    ensures |Strokes(sts, k)| == 3 * k
    ensures forall j :: 0 <= j < k ==>
      Strokes(sts, k)[3 * j] == Color(sts[j].color) &&
      Strokes(sts, k)[3 * j + 1] == Forward(sts[j].length) &&
      Strokes(sts, k)[3 * j + 2] == Turn(sts[j].angle)
    decreases k
  {
    if k > 0 {
      StrokesAt(sts, k - 1);
    }
  }

  lemma StrokeCounts(st: Stroke)
    ensures ForwardCount(StrokeCmds(st)) == 1
    ensures TurnTotal(StrokeCmds(st)) == st.angle
  {
    assert StrokeCmds(st) == [Color(st.color)] + [Forward(st.length)] + [Turn(st.angle)];
    CountsConcat([Color(st.color)], [Forward(st.length)]);
    CountsConcat([Color(st.color)] + [Forward(st.length)], [Turn(st.angle)]);
    CountsOne(Color(st.color));
    CountsOne(Forward(st.length));
    CountsOne(Turn(st.angle));
  }

  /** Sum of the turn angles of the first `k` strokes. */
  function Turning(sts: seq<Stroke>, k: nat): real
    requires k <= |sts|
    decreases k
  {
    if k == 0 then 0.0 else Turning(sts, k - 1) + sts[k - 1].angle
  }

  /** Strokes draw one segment each and turn by their angles in all. */
  lemma {:induction false} StrokesCounts(sts: seq<Stroke>, k: nat)
    requires k <= |sts|
    ensures ForwardCount(Strokes(sts, k)) == k
    ensures TurnTotal(Strokes(sts, k)) == Turning(sts, k)
    decreases k
  {
    if k > 0 {
      StrokesCounts(sts, k - 1);
      CountsConcat(Strokes(sts, k - 1), StrokeCmds(sts[k - 1]));
      StrokeCounts(sts[k - 1]);
    }
  }

  /** After at least one stroke the pen has the last stroke's colour. */
  lemma StrokesColor(initial: string, sts: seq<Stroke>, k: nat)
    requires 0 < k <= |sts|
    ensures LastColor(initial, Strokes(sts, k)) == sts[k - 1].color
  {
    var st := sts[k - 1];
    var prev := Strokes(sts, k - 1);
    var all := Strokes(sts, k);
    assert all == prev + [Color(st.color), Forward(st.length), Turn(st.angle)];
    assert all[..|all| - 1] == prev + [Color(st.color), Forward(st.length)];
    var two := prev + [Color(st.color), Forward(st.length)];
    var one := prev + [Color(st.color)];
    assert two[..|two| - 1] == one;
    assert LastColor(initial, one) == st.color;
    assert LastColor(initial, two) == LastColor(initial, one);
  }

  /** Executing strokes draws one segment per stroke, in the stroke's colour,
      after the segments already drawn. */
  lemma {:induction false} StrokesPath(m: Numerics, s: TurtleState, sts: seq<Stroke>, k: nat)
    requires k <= |sts|
    ensures |Run(m, s, Strokes(sts, k)).path| == |s.path| + k
    ensures Run(m, s, Strokes(sts, k)).path[..|s.path|] == s.path
    ensures forall i :: 0 <= i < k ==> Run(m, s, Strokes(sts, k)).path[|s.path| + i].color == sts[i].color
    decreases k
  {
    if k > 0 {
      var st := sts[k - 1];
      StrokesPath(m, s, sts, k - 1);
      var mid := Run(m, s, Strokes(sts, k - 1));
      RunConcat(m, s, Strokes(sts, k - 1), StrokeCmds(st));
      RunShort(m, mid, Color(st.color), Forward(st.length), Turn(st.angle));
      var colored := Step(m, mid, Color(st.color));
      var moved := Step(m, colored, Forward(st.length));
      var r := Run(m, s, Strokes(sts, k));
      assert r.path == moved.path;
      assert moved.path == mid.path + [Segment(mid.position, moved.position, st.color)];
      assert r.path[..|mid.path|] == mid.path;
    }
  }

  /** drawPersonalArt issues 48 commands, 16 of them Forward, as colour, forward,
      turn triples in the listed order. */
  lemma ArtShape()
    ensures |ArtCmds()| == 48
    ensures ForwardCount(ArtCmds()) == 16
    ensures forall j :: 0 <= j < 16 ==>
      ArtCmds()[3 * j] == Color(ArtStrokes[j].color) &&
      ArtCmds()[3 * j + 1] == Forward(ArtStrokes[j].length) &&
      ArtCmds()[3 * j + 2] == Turn(ArtStrokes[j].angle)
  {
    StrokesCounts(ArtStrokes, 16);
    StrokesAt(ArtStrokes, 16);
  }

  lemma AppendAssoc(a: seq<Cmd>, b: seq<Cmd>, c: seq<Cmd>)
    ensures a + (b + c) == (a + b) + c
  {
  }

  /** Proof step for DrawPersonalArt: `ArtCmds` regrouped as the sixteen
      `StrokeCmds` of its straight-line body, appended to a trace. */
  lemma ArtCmdsListed(before: seq<Cmd>)
    ensures before + ArtCmds() == before
      + StrokeCmds(Stroke("blue", 120.0, 45.0))
      + StrokeCmds(Stroke("red", 20.0, 30.0))
      + StrokeCmds(Stroke("green", 55.0, 60.0))
      + StrokeCmds(Stroke("purple", 10.0, 75.0))
      + StrokeCmds(Stroke("yellow", 20.0, 20.0))
      + StrokeCmds(Stroke("cyan", 30.0, 90.0))
      + StrokeCmds(Stroke("orange", 100.0, 50.0))
      + StrokeCmds(Stroke("black", 25.0, 35.0))
      + StrokeCmds(Stroke("blue", 20.0, 45.0))
      + StrokeCmds(Stroke("red", 80.0, 30.0))
      + StrokeCmds(Stroke("green", 95.0, 60.0))
      + StrokeCmds(Stroke("purple", 110.0, 75.0))
      + StrokeCmds(Stroke("yellow", 70.0, 20.0))
      + StrokeCmds(Stroke("cyan", 130.0, 90.0))
      + StrokeCmds(Stroke("orange", 100.0, 50.0))
      + StrokeCmds(Stroke("black", 85.0, 35.0))
  {
    AppendAssoc(before, Strokes(ArtStrokes, 0), StrokeCmds(Stroke("blue", 120.0, 45.0)));
    AppendAssoc(before, Strokes(ArtStrokes, 1), StrokeCmds(Stroke("red", 20.0, 30.0)));
    AppendAssoc(before, Strokes(ArtStrokes, 2), StrokeCmds(Stroke("green", 55.0, 60.0)));
    AppendAssoc(before, Strokes(ArtStrokes, 3), StrokeCmds(Stroke("purple", 10.0, 75.0)));
    AppendAssoc(before, Strokes(ArtStrokes, 4), StrokeCmds(Stroke("yellow", 20.0, 20.0)));
    AppendAssoc(before, Strokes(ArtStrokes, 5), StrokeCmds(Stroke("cyan", 30.0, 90.0)));
    AppendAssoc(before, Strokes(ArtStrokes, 6), StrokeCmds(Stroke("orange", 100.0, 50.0)));
    AppendAssoc(before, Strokes(ArtStrokes, 7), StrokeCmds(Stroke("black", 25.0, 35.0)));
    AppendAssoc(before, Strokes(ArtStrokes, 8), StrokeCmds(Stroke("blue", 20.0, 45.0)));
    AppendAssoc(before, Strokes(ArtStrokes, 9), StrokeCmds(Stroke("red", 80.0, 30.0)));
    AppendAssoc(before, Strokes(ArtStrokes, 10), StrokeCmds(Stroke("green", 95.0, 60.0)));
    AppendAssoc(before, Strokes(ArtStrokes, 11), StrokeCmds(Stroke("purple", 110.0, 75.0)));
    AppendAssoc(before, Strokes(ArtStrokes, 12), StrokeCmds(Stroke("yellow", 70.0, 20.0)));
    AppendAssoc(before, Strokes(ArtStrokes, 13), StrokeCmds(Stroke("cyan", 130.0, 90.0)));
    AppendAssoc(before, Strokes(ArtStrokes, 14), StrokeCmds(Stroke("orange", 100.0, 50.0)));
    AppendAssoc(before, Strokes(ArtStrokes, 15), StrokeCmds(Stroke("black", 85.0, 35.0)));
    assert before + Strokes(ArtStrokes, 0) == before;
  }

  /** Proof step for ArtTurning, split off to keep each proof small: the first
      eight turn angles add up to 405 degrees. */
  lemma ArtTurningFirstHalf()
    ensures Turning(ArtStrokes, 8) == 405.0
  {
    assert Turning(ArtStrokes, 1) == 45.0;
    assert Turning(ArtStrokes, 2) == 75.0;
    assert Turning(ArtStrokes, 3) == 135.0;
    assert Turning(ArtStrokes, 4) == 210.0;
    assert Turning(ArtStrokes, 5) == 230.0;
    assert Turning(ArtStrokes, 6) == 320.0;
    assert Turning(ArtStrokes, 7) == 370.0;
  }

  /** The turn angles of drawPersonalArt add up to 810 degrees. */
  lemma ArtTurning()
    ensures Turning(ArtStrokes, 16) == 810.0
  {
    ArtTurningFirstHalf();
    assert Turning(ArtStrokes, 9) == 450.0;
    assert Turning(ArtStrokes, 10) == 480.0;
    assert Turning(ArtStrokes, 11) == 540.0;
    assert Turning(ArtStrokes, 12) == 615.0;
    assert Turning(ArtStrokes, 13) == 635.0;
    assert Turning(ArtStrokes, 14) == 725.0;
    assert Turning(ArtStrokes, 15) == 775.0;
  }

  /** Executing drawPersonalArt's commands from any state: the heading grows by
      810 degrees, the pen ends black, and sixteen segments are drawn after the
      existing ones, in the listed stroke colours. */
  lemma ArtEffect(m: Numerics, s: TurtleState)
    ensures Run(m, s, ArtCmds()).heading == s.heading + 810.0
    ensures Run(m, s, ArtCmds()).color == "black"
    ensures |Run(m, s, ArtCmds()).path| == |s.path| + 16
    ensures Run(m, s, ArtCmds()).path[..|s.path|] == s.path
    ensures forall i :: 0 <= i < 16 ==> Run(m, s, ArtCmds()).path[|s.path| + i].color == ArtStrokes[i].color
  {
    StrokesPath(m, s, ArtStrokes, 16);
    RunEffect(m, s, ArtCmds());
    StrokesCounts(ArtStrokes, 16);
    ArtTurning();
    RunColor(m, s, ArtCmds());
    StrokesColor(s.color, ArtStrokes, 16);
  }

  /** One group of drawPersonalArt: `turtle.color(c); turtle.forward(d); turtle.turn(a)`. */
  method DrawStroke(t: Turtle, st: Stroke)
    requires t.Valid()
    modifies t
    ensures t.Valid() && t.trace == old(t.trace) + StrokeCmds(st)
  {
    t.Color(st.color);
    t.Forward(st.length);
    t.Turn(st.angle);
  }

  /** drawSquare: four sides, each followed by a quarter turn. */
  method DrawSquare(t: Turtle, sideLength: real)
    requires t.Valid()
    modifies t
    ensures t.Valid() && t.trace == old(t.trace) + SquareCmds(sideLength)
    ensures t.heading == old(t.heading) + 360.0 && t.penColor == old(t.penColor)
    ensures |t.path| == |old(t.path)| + 4 && t.path[..|old(t.path)|] == old(t.path)
  {
    for i := 0 to 4
      invariant t.Valid()
      invariant t.trace == old(t.trace) + Laps(sideLength, 90.0, i)
      invariant t.penColor == old(t.penColor)
    {
      t.Forward(sideLength);
      t.Turn(90.0);
    }
    RunConcat(t.math, t.start, old(t.trace), SquareCmds(sideLength));
    RunEffect(t.math, old(t.State()), SquareCmds(sideLength));
    LapsCounts(sideLength, 90.0, 4);
  }

  /** drawApproximateCircle: numSides chords of equal length, each followed by
      a turn of 360 / numSides degrees; nothing at all when numSides <= 0 (the
      loop body never runs, so the values JavaScript computes before it, such as
      Infinity for 360 / 0, are never used). */
  method DrawApproximateCircle(t: Turtle, radius: real, numSides: int)
    requires t.Valid()
    modifies t
    ensures t.Valid() && t.trace == old(t.trace) + CircleCmds(t.math, radius, numSides)
    ensures numSides <= 0 ==> t.State() == old(t.State())
    ensures numSides > 0 ==> t.heading == old(t.heading) + 360.0
    ensures |t.path| == |old(t.path)| + (if numSides > 0 then numSides else 0)
    ensures t.path[..|old(t.path)|] == old(t.path) && t.penColor == old(t.penColor)
  {
    if numSides > 0 {
      var angle := 360.0 / numSides as real;
      var stepLength := ChordLength(t.math, radius, angle);
      for i := 0 to numSides
        invariant t.Valid()
        invariant t.trace == old(t.trace) + Laps(stepLength, angle, i)
        invariant t.penColor == old(t.penColor)
      {
        t.Forward(stepLength);
        t.Turn(angle);
      }
      RunConcat(t.math, t.start, old(t.trace), CircleCmds(t.math, radius, numSides));
      RunEffect(t.math, old(t.State()), CircleCmds(t.math, radius, numSides));
      CircleTurnsOnce(t.math, radius, numSides);
    } else {
      assert old(t.trace) + [] == old(t.trace);
    }
  }

  /** drawPersonalArt: sixteen colour, forward, turn groups, in the listed order. */
  method DrawPersonalArt(t: Turtle)
    requires t.Valid()
    modifies t
    ensures t.Valid() && t.trace == old(t.trace) + ArtCmds()
    ensures t.State() == Run(t.math, old(t.State()), ArtCmds())
  {
    DrawStroke(t, Stroke("blue", 120.0, 45.0));
    DrawStroke(t, Stroke("red", 20.0, 30.0));
    DrawStroke(t, Stroke("green", 55.0, 60.0));
    DrawStroke(t, Stroke("purple", 10.0, 75.0));
    DrawStroke(t, Stroke("yellow", 20.0, 20.0));
    DrawStroke(t, Stroke("cyan", 30.0, 90.0));
    DrawStroke(t, Stroke("orange", 100.0, 50.0));
    DrawStroke(t, Stroke("black", 25.0, 35.0));
    DrawStroke(t, Stroke("blue", 20.0, 45.0));
    DrawStroke(t, Stroke("red", 80.0, 30.0));
    DrawStroke(t, Stroke("green", 95.0, 60.0));
    DrawStroke(t, Stroke("purple", 110.0, 75.0));
    DrawStroke(t, Stroke("yellow", 70.0, 20.0));
    DrawStroke(t, Stroke("cyan", 130.0, 90.0));
    DrawStroke(t, Stroke("orange", 100.0, 50.0));
    DrawStroke(t, Stroke("black", 85.0, 35.0));
    ArtCmdsListed(old(t.trace));
    RunConcat(t.math, t.start, old(t.trace), ArtCmds());
  }
}
