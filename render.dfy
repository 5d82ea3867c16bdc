/** generateHTML of turtlesoup.ts: a 500 by 500 SVG canvas holding one `<line>`
    element per path segment, with every coordinate moved by half the canvas so
    that the turtle's origin lands in the middle. The markup is modelled as the
    list of line elements with their attributes. */
module Render {
  import opened Geometry
  import opened Turtles
  import opened Drivers

  const CanvasWidth: int := 500
  const CanvasHeight: int := 500
  const Scale: real := 1.0
  const OffsetX: real := CanvasWidth as real / 2.0
  const OffsetY: real := CanvasHeight as real / 2.0
  const LineWidth: int := 2

  /** One `<line x1 y1 x2 y2 stroke stroke-width/>` element. */
  datatype Line = Line(x1: real, y1: real, x2: real, y2: real, stroke: string, strokeWidth: int)

  /** The `<svg>` element of the page: its size and its line elements, in order. */
  datatype Svg = Svg(width: int, height: int, lines: seq<Line>)

  /** The line element drawn for one segment. */
  function LineOf(segment: Segment): Line {
    Line(segment.start.x * Scale + OffsetX, segment.start.y * Scale + OffsetY,
         segment.end.x * Scale + OffsetX, segment.end.y * Scale + OffsetY,
         segment.color, LineWidth)
  }

  /** The line elements for a path, accumulated segment after segment. */
  function Lines(path: seq<Segment>): (r: seq<Line>)
    ensures |r| == |path|
    decreases |path|
  {
    if path == [] then [] else Lines(path[..|path| - 1]) + [LineOf(path[|path| - 1])]
  }

  /** Line i is segment i translated by (250, 250), in the segment's colour, two units wide. */
  lemma {:induction false} LinesAt(path: seq<Segment>)
    ensures forall i :: 0 <= i < |path| ==>
      Lines(path)[i] == Line(path[i].start.x + 250.0, path[i].start.y + 250.0,
                             path[i].end.x + 250.0, path[i].end.y + 250.0, path[i].color, 2)
    decreases |path|
  {
    if path != [] {
      LinesAt(path[..|path| - 1]);
    }
  }

  /** Rendering a path in two parts renders the parts one after the other. */
  lemma {:induction false} LinesAppend(a: seq<Segment>, b: seq<Segment>)
    ensures Lines(a + b) == Lines(a) + Lines(b)
    decreases |b|
  {
    if b == [] {
      assert a + b == a;
    } else {
      var b' := b[..|b| - 1];
      assert (a + b)[..|a + b| - 1] == a + b';
      LinesAppend(a, b');
    }
  }

  /** The segment a line element was drawn from, found by undoing the translation. */
  function SegmentOf(line: Line): Segment {
    Segment(Point(line.x1 - OffsetX, line.y1 - OffsetY), Point(line.x2 - OffsetX, line.y2 - OffsetY), line.stroke)
  }

  /** No information about a segment is lost: it can be read back from its line element. */
  lemma LineRoundTrip(segment: Segment)
    ensures SegmentOf(LineOf(segment)) == segment
    ensures LineOf(segment).strokeWidth == 2
  {
  }

  /** A connected path renders as connected lines: each line starts where the previous one ends. */
  lemma LinesConnected(s: TurtleState)
    requires Connected(s)
    ensures forall i :: 0 < i < |s.path| ==>
      Lines(s.path)[i].x1 == Lines(s.path)[i - 1].x2 && Lines(s.path)[i].y1 == Lines(s.path)[i - 1].y2
  {
    LinesAt(s.path);
    forall i | 0 < i < |s.path|
      ensures Lines(s.path)[i].x1 == Lines(s.path)[i - 1].x2 && Lines(s.path)[i].y1 == Lines(s.path)[i - 1].y2
    {
      assert s.path[i].start == s.path[i - 1].end;
    }
  }

  /** What main renders after drawPersonalArt on a turtle with an empty path:
      sixteen lines, in the colours of the sixteen strokes, in order. */
  lemma ArtRendered(m: Numerics, s: TurtleState)
    requires s.path == []
    ensures |Lines(Run(m, s, ArtCmds()).path)| == 16
    ensures forall i :: 0 <= i < 16 ==> Lines(Run(m, s, ArtCmds()).path)[i].stroke == ArtStrokes[i].color
  {
    ArtEffect(m, s);
    LinesAt(Run(m, s, ArtCmds()).path);
  }

  /** generateHTML: one line element per segment, in path order, on a 500 by 500 canvas. */
  method GenerateHTML(path: seq<Segment>) returns (svg: Svg)
    ensures svg.width == 500 && svg.height == 500
    ensures svg.lines == Lines(path)
    ensures |svg.lines| == |path|
    ensures forall i :: 0 <= i < |path| ==>
      svg.lines[i] == Line(path[i].start.x + 250.0, path[i].start.y + 250.0,
                           path[i].end.x + 250.0, path[i].end.y + 250.0, path[i].color, 2)
    ensures path == [] ==> svg.lines == []
  {
    var lines: seq<Line> := [];
    for i := 0 to |path|
      invariant lines == Lines(path[..i])
    {
      var segment := path[i];
      var x1 := segment.start.x * Scale + OffsetX;
      var y1 := segment.start.y * Scale + OffsetY;
      var x2 := segment.end.x * Scale + OffsetX;
      var y2 := segment.end.y * Scale + OffsetY;
      lines := lines + [Line(x1, y1, x2, y2, segment.color, LineWidth)];
      assert path[..i + 1][..i] == path[..i];
    }
    assert path[..|path|] == path;
    LinesAt(path);
    svg := Svg(CanvasWidth, CanvasHeight, lines);
  }
}
