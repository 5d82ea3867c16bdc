/** The turtle that the drawing routines drive. turtle.ts (SimpleTurtle) is not
    part of this model; the turtle is modelled as follows: `forward` moves along
    the heading and records one coloured segment, `turn` adds to the heading
    (which is not reduced modulo 360), `color` changes the pen for later
    segments. The turtle carries the JavaScript `Math` it computes with as its
    `math` field.

    Every command a turtle executes is also appended to its `trace`, and the
    turtle's state is at all times the replay `Run` of that trace from its
    initial state. */
module Turtles {
  import opened Geometry

  /** One directive issued to a turtle. */
  datatype Cmd = Forward(distance: real) | Turn(angle: real) | Color(color: string)

  /** One drawn stroke. */
  datatype Segment = Segment(start: Point, end: Point, color: string)

  /** The observable state of a turtle: position, heading in degrees, pen colour, and the path so far. */
  datatype TurtleState = TurtleState(position: Point, heading: real, color: string, path: seq<Segment>)

  /** Where `forward(distance)` from `p` at `heading` degrees lands. */
  function Advance(m: Numerics, p: Point, heading: real, distance: real): Point {
    Point(p.x + distance * m.cos(Radians(heading)), p.y + distance * m.sin(Radians(heading)))
  }

  /** The effect of one command. */
  function Step(m: Numerics, s: TurtleState, c: Cmd): TurtleState {
    match c
    case Forward(d) =>
      var e := Advance(m, s.position, s.heading, d);
      s.(position := e, path := s.path + [Segment(s.position, e, s.color)])
    case Turn(a) => s.(heading := s.heading + a)
    case Color(col) => s.(color := col)
  }

  /** The state reached by executing `cmds` in order from `s`. */
  function Run(m: Numerics, s: TurtleState, cmds: seq<Cmd>): TurtleState
    decreases |cmds|
  {
    if cmds == [] then s else Step(m, Run(m, s, cmds[..|cmds| - 1]), cmds[|cmds| - 1])
  }

  /** Number of Forward commands in a command sequence. */
  function ForwardCount(cmds: seq<Cmd>): nat
    decreases |cmds|
  {
    if cmds == [] then 0
    else ForwardCount(cmds[..|cmds| - 1]) + (if cmds[|cmds| - 1].Forward? then 1 else 0)
  }

  /** Sum of the angles of the Turn commands in a command sequence. */
  function TurnTotal(cmds: seq<Cmd>): real
    decreases |cmds|
  {
    if cmds == [] then 0.0
    else TurnTotal(cmds[..|cmds| - 1]) + (if cmds[|cmds| - 1].Turn? then cmds[|cmds| - 1].angle else 0.0)
  }

  /** Executing a concatenation is executing the parts one after the other. */
  lemma {:induction false} RunConcat(m: Numerics, s: TurtleState, a: seq<Cmd>, b: seq<Cmd>)
    ensures Run(m, s, a + b) == Run(m, Run(m, s, a), b)
    decreases |b|
  {
    if b == [] {
      assert a + b == a;
    } else {
      var b' := b[..|b| - 1];
      assert (a + b)[..|a + b| - 1] == a + b';
      RunConcat(m, s, a, b');
    }
  }

  lemma {:induction false} CountsConcat(a: seq<Cmd>, b: seq<Cmd>)
    ensures ForwardCount(a + b) == ForwardCount(a) + ForwardCount(b)
    ensures TurnTotal(a + b) == TurnTotal(a) + TurnTotal(b)
    decreases |b|
  {
    if b == [] {
      assert a + b == a;
    } else {
      var b' := b[..|b| - 1];
      assert (a + b)[..|a + b| - 1] == a + b';
      CountsConcat(a, b');
    }
  }

  /** Executing one, two or three commands. */
  lemma RunShort(m: Numerics, s: TurtleState, a: Cmd, b: Cmd, c: Cmd)
    ensures Run(m, s, [a]) == Step(m, s, a)
    ensures Run(m, s, [a, b]) == Step(m, Step(m, s, a), b)
    ensures Run(m, s, [a, b, c]) == Step(m, Step(m, Step(m, s, a), b), c)
  {
    assert [a][..0] == [];
    assert [a, b][..1] == [a];
    assert [a, b, c][..2] == [a, b];
  }

  lemma CountsOne(c: Cmd)
    ensures ForwardCount([c]) == (if c.Forward? then 1 else 0)
    ensures TurnTotal([c]) == (if c.Turn? then c.angle else 0.0)
  {
    assert [c][..0] == [];
  }

  /** The path only grows: it keeps its old segments as a prefix and gains
      exactly one segment per Forward; the heading changes by exactly the
      sum of the Turn angles; Turn and Color draw nothing. */
  lemma {:induction false} RunEffect(m: Numerics, s: TurtleState, cmds: seq<Cmd>)
    ensures |Run(m, s, cmds).path| == |s.path| + ForwardCount(cmds)
    ensures Run(m, s, cmds).path[..|s.path|] == s.path
    ensures Run(m, s, cmds).heading == s.heading + TurnTotal(cmds)
    decreases |cmds|
  {
    if cmds != [] {
      RunEffect(m, s, cmds[..|cmds| - 1]);
      var before := Run(m, s, cmds[..|cmds| - 1]);
      assert before.path[..|s.path|] == s.path;
      assert Run(m, s, cmds).path[..|before.path|] == before.path;
    }
  }

  /** The pen colour after a command sequence is that of its last Color command,
      or the initial one when it has none. */
  function LastColor(initial: string, cmds: seq<Cmd>): string
    decreases |cmds|
  {
    if cmds == [] then initial
    else if cmds[|cmds| - 1].Color? then cmds[|cmds| - 1].color
    else LastColor(initial, cmds[..|cmds| - 1])
  }

  lemma {:induction false} RunColor(m: Numerics, s: TurtleState, cmds: seq<Cmd>)
    ensures Run(m, s, cmds).color == LastColor(s.color, cmds)
    decreases |cmds|
  {
    if cmds != [] {
      RunColor(m, s, cmds[..|cmds| - 1]);
    }
  }

  /** The path is continuous and ends where the turtle stands: each segment
      starts where the previous one ended, and the last one ends at `position`. */
  ghost predicate Connected(s: TurtleState) {
    (forall i :: 0 < i < |s.path| ==> s.path[i].start == s.path[i - 1].end) &&
    (s.path != [] ==> s.path[|s.path| - 1].end == s.position)
  }

  /** Executing commands keeps the path connected. */
  lemma {:induction false} RunConnected(m: Numerics, s: TurtleState, cmds: seq<Cmd>)
    requires Connected(s)
    ensures Connected(Run(m, s, cmds))
    decreases |cmds|
  {
    if cmds != [] {
      RunConnected(m, s, cmds[..|cmds| - 1]);
    }
  }

  /** `forward(d)` followed by `forward(-d)` brings the turtle back to where it was,
      whatever sine and cosine compute, and draws two segments. */
  lemma ForwardBackRoundTrip(m: Numerics, s: TurtleState, d: real)
    ensures Run(m, s, [Forward(d), Forward(-d)]).position == s.position
    ensures |Run(m, s, [Forward(d), Forward(-d)]).path| == |s.path| + 2
  {
    var cmds := [Forward(d), Forward(-d)];
    assert cmds[..1] == [Forward(d)] && [Forward(d)][..0] == [];
    var one := Run(m, s, [Forward(d)]);
    assert Run(m, s, []) == s;
    assert one == Step(m, Run(m, s, []), Forward(d));
    assert Run(m, s, cmds) == Step(m, one, Forward(-d));
    var p, h := s.position, s.heading;
    var q := Advance(m, p, h, d);
    assert one.position == q && one.heading == h;
    var c, sn := m.cos(Radians(h)), m.sin(Radians(h));
    assert Advance(m, q, h, -d) == Point(q.x + (-d) * c, q.y + (-d) * sn);
    assert q == Point(p.x + d * c, p.y + d * sn);
    assert d * c + (-d) * c == 0.0;
    assert d * sn + (-d) * sn == 0.0;
  }

  /** A turtle. The public fields mirror getPosition, getHeading and getPath;
      `trace` records every command executed. */
  class Turtle {
    const math: Numerics
    ghost const start: TurtleState
    var trace: seq<Cmd>
    var position: Point
    var heading: real
    var penColor: string
    var path: seq<Segment>

    function State(): TurtleState
      reads this
    {
      TurtleState(position, heading, penColor, path)
    }

    /** The current state is the replay of the trace from the initial state. */
    ghost predicate Valid()
      reads this
    {
      State() == Run(math, start, trace)
    }

    /** A new turtle stands at the origin, facing along +x, with an empty path. */
    constructor (math: Numerics, color: string)
      ensures Valid() && this.math == math && trace == []
      ensures State() == TurtleState(Point(0.0, 0.0), 0.0, color, [])
    {
      this.math := math;
      start := TurtleState(Point(0.0, 0.0), 0.0, color, []);
      trace := [];
      position := Point(0.0, 0.0);
      heading := 0.0;
      penColor := color;
      path := [];
    }

    method Forward(distance: real)
      requires Valid()
      modifies this
      ensures Valid() && trace == old(trace) + [Cmd.Forward(distance)]
      ensures State() == Step(math, old(State()), Cmd.Forward(distance))
    {
      var next := Advance(math, position, heading, distance);
      path := path + [Segment(position, next, penColor)];
      position := next;
      trace := trace + [Cmd.Forward(distance)];
      assert trace[..|trace| - 1] == old(trace);
    }

    method Turn(angle: real)
      requires Valid()
      modifies this
      ensures Valid() && trace == old(trace) + [Cmd.Turn(angle)]
      ensures State() == Step(math, old(State()), Cmd.Turn(angle))
    {
      heading := heading + angle;
      trace := trace + [Cmd.Turn(angle)];
      assert trace[..|trace| - 1] == old(trace);
    }

    method Color(color: string)
      requires Valid()
      modifies this
      ensures Valid() && trace == old(trace) + [Cmd.Color(color)]
      ensures State() == Step(math, old(State()), Cmd.Color(color))
    {
      penColor := color;
      trace := trace + [Cmd.Color(color)];
      assert trace[..|trace| - 1] == old(trace);
    }

    method GetPosition() returns (p: Point)
      ensures p == position
    {
      p := position;
    }

    method GetHeading() returns (h: real)
      ensures h == heading
    {
      h := heading;
    }

    method GetPath() returns (segments: seq<Segment>)
      ensures segments == path
    {
      segments := path;
    }
  }
}
