# Turtle soup, modelled in Dafny

This project models `PS0/src/turtlesoup.ts`, a set of turtle-graphics routines:

- `drawSquare`, `drawApproximateCircle` and `drawPersonalArt` drive a turtle;
- `chordLength` and `distance` are closed formulas;
- `findPath` turns a list of waypoints into "turn" and "forward" instructions;
- `generateHTML` renders the turtle's path as SVG line elements.

Modules:

- `Geometry` (geometry.dfy) holds points, the formulas, and the JavaScript numeric primitives.
  - `Math.sin`, `Math.cos`, `Math.atan2`, `Math.sqrt`, `Number(v.toFixed(10))` and `toFixed(2)` are fields of a `Numerics` value.
  - They are left uninterpreted, so every property holds whatever they compute, unless a lemma names a hypothesis about them.
  - JavaScript's `%`, which keeps the sign of the dividend, is written out as `JsRem360`.
- `Turtles` (turtle.dfy) is the turtle the routines drive.
  - turtle.ts is not part of this model. The turtle is modelled as follows: `forward` moves along the heading in degrees and records one segment in the current colour; `turn` adds to the heading and does not reduce it modulo 360; `color` sets the pen.
  - JavaScript's global `Math` (and `toFixed`) is carried by each turtle as its `math` field. The routines that take a turtle use the turtle's `math`; the pure functions take the `Numerics` value as a parameter.
  - The `Turtle` class keeps its state in fields. It also records every command in `trace`.
  - `Valid()` says the state is always the replay `Run` of the trace from the initial state.
- `Drivers` (drivers.dfy) holds the three drawing routines.
  - Each is proved to append exactly its command sequence (`SquareCmds`, `CircleCmds`, `ArtCmds`) to the trace.
  - Lemmas about those sequences give the effect on heading, path and pen.
- `PathFinding` (findpath.dfy) holds `findPath`.
  - `FindPath` is proved equal to the recursive definition `Instructions`.
  - `FindPath` computes the turn value with `TurnAngle`, which evaluates the bearing again instead of reusing `targetAngle`. Both are pure, so no behaviour is lost.
  - The turtle itself is left unchanged.
- `Render` (render.dfy) holds `generateHTML`.
  - The page is modelled as its `<svg>` element: width, height and the list of line elements with their attributes.

The turn value of `findPath` is not always in [0, 360). The code computes `(targetAngle - currentHeading + 360) % 360` with JavaScript's `%`, which keeps the sign of the dividend. Suppose `SimpleTurtle.turn` does not reduce the heading modulo 360; the model assumes it does not. Then from a heading of 540 degrees or more, the first turn value is in (-360, 0]. The modelled turtle reaches a heading of 810 degrees after drawPersonalArt on a fresh turtle. The model follows the code:

- `PathFinding.FirstTurnFromWoundHeading` states the negative case;
- `PathFinding.FirstTurnInRange` and `PathFinding.LaterTurnsInRange` state where the range does hold.

## Model

| member | source | states |
|---|---|---|
| Geometry.ChordLengthDegenerate | PS0/src/turtlesoup.ts:12-15 | a zero angle or a zero radius gives a zero chord, if sine and the rounding keep zero |
| Geometry.ChordLength | PS0/src/turtlesoup.ts:12-15 | the source formula over the uninterpreted sine and rounding; a zero radius gives a zero chord when rounding keeps zero (more in ChordLengthDegenerate) |
| Geometry.Distance | PS0/src/turtlesoup.ts:31-33 | the source formula over the uninterpreted square root; it is symmetric in its two points (more in SquaredDistanceProperties and DistanceProperties) |
| Geometry.SquaredDistanceProperties | PS0/src/turtlesoup.ts:31-33 | the quantity under the root is non-negative, symmetric in the two points, and zero from a point to itself |
| Geometry.DistanceProperties | PS0/src/turtlesoup.ts:31-33 | distance is symmetric and is `Math.sqrt(0)` from a point to itself; it is non-negative when the root is non-negative on non-negative inputs |
| Geometry.Bearing | PS0/src/turtlesoup.ts:41-43 | the bearing in degrees lies in (-180, 180] when atan2 lies in (-PI, PI] |
| Geometry.JsRem360 | PS0/src/turtlesoup.ts:44 | `% 360` keeps the sign of the dividend and has absolute value below 360; it is the identity on (-360, 360) and subtracts or adds one 360 on the next band |
| Turtles.RunConcat | PS0/src/turtlesoup.ts:5-10 | executing two command sequences in turn is executing their concatenation |
| Turtles.CountsConcat | PS0/src/turtlesoup.ts:5-10 | forward counts and turn totals add up over concatenation |
| Turtles.RunEffect | PS0/src/turtlesoup.ts:5-10 | the path keeps its old segments and gains one per forward; the heading changes by the sum of the turns |
| Turtles.RunColor | PS0/src/turtlesoup.ts:56-104 | the pen colour is that of the last color command, or the initial one |
| Turtles.RunConnected | PS0/src/turtlesoup.ts:5-10 | every segment starts where the previous one ended and the last ends at the turtle, and commands keep it so |
| Turtles.ForwardBackRoundTrip | PS0/src/turtlesoup.ts:7 | forward(d) then forward(-d) returns the turtle to where it was, drawing two segments |
| Turtles.Turtle.constructor | PS0/src/turtlesoup.ts:168 | a new turtle stands at the origin facing 0 degrees with an empty path and an empty trace |
| Turtles.Turtle.Forward | PS0/src/turtlesoup.ts:7 | the state moves by one forward step, recording one segment, and the trace gains that command |
| Turtles.Turtle.Turn | PS0/src/turtlesoup.ts:8 | the heading grows by the angle and the trace gains that command |
| Turtles.Turtle.Color | PS0/src/turtlesoup.ts:57 | the pen colour changes and the trace gains that command |
| Turtles.Turtle.GetPosition | PS0/src/turtlesoup.ts:37 | returns the current position |
| Turtles.Turtle.GetHeading | PS0/src/turtlesoup.ts:38 | returns the current heading |
| Turtles.Turtle.GetPath | PS0/src/turtlesoup.ts:183 | returns the drawn path |
| Drivers.Laps | PS0/src/turtlesoup.ts:6-9 | n laps are 2n commands: forward at even positions and turn at odd ones |
| Drivers.LapsCounts | PS0/src/turtlesoup.ts:6-9 | n laps draw n segments and turn by n times the angle |
| Drivers.DrawSquare | PS0/src/turtlesoup.ts:5-10 | appends four forward and quarter-turn pairs; the heading grows by 360, four segments are added after the old path, and the pen is unchanged |
| Drivers.CircleTurnsOnce | PS0/src/turtlesoup.ts:17-29 | for positive numSides the polygon draws numSides chords and turns by exactly 360 degrees |
| Drivers.DrawApproximateCircle | PS0/src/turtlesoup.ts:17-29 | appends numSides chord and turn pairs; nothing changes for numSides <= 0; otherwise the heading grows by 360; the path grows by numSides after the old one; the pen is unchanged |
| Drivers.StrokesAt | PS0/src/turtlesoup.ts:56-104 | stroke j occupies commands 3j, 3j+1, 3j+2 as color, forward, turn with its own values |
| Drivers.StrokesCounts | PS0/src/turtlesoup.ts:56-104 | k strokes draw k segments and turn by the sum of their angles |
| Drivers.StrokesColor | PS0/src/turtlesoup.ts:56-104 | after at least one stroke the pen has the last stroke's colour |
| Drivers.StrokesPath | PS0/src/turtlesoup.ts:56-104 | k strokes add k segments after the old path, segment i in stroke i's colour |
| Drivers.ArtShape | PS0/src/turtlesoup.ts:56-104 | drawPersonalArt issues 48 commands, 16 of them forward, in the listed colour, forward, turn order |
| Drivers.ArtTurning | PS0/src/turtlesoup.ts:56-104 | the sixteen turns add up to 810 degrees |
| Drivers.ArtEffect | PS0/src/turtlesoup.ts:56-104 | from any state the heading grows by 810, the pen ends black, and sixteen segments are added after the old path in the stroke colours |
| Drivers.DrawStroke | PS0/src/turtlesoup.ts:57-59 | a color, forward, turn group appends exactly those three commands |
| Drivers.DrawPersonalArt | PS0/src/turtlesoup.ts:56-104 | appends exactly the art commands, so the new state is their replay from the old one |
| PathFinding.TurnAngle | PS0/src/turtlesoup.ts:43-44 | the source expression `(targetAngle - currentHeading + 360) % 360`; the value lies strictly between -360 and 360 (its range for in-range bearings is in JsRem360, FirstTurnInRange and LaterTurnsInRange) |
| PathFinding.Instructions | PS0/src/turtlesoup.ts:35-55 | two instructions per waypoint |
| PathFinding.InstructionPair | PS0/src/turtlesoup.ts:40-51 | instruction 2i turns towards waypoint i and 2i+1 covers the distance to it, measured from the previous waypoint (or the start) with the previous bearing (or the start heading) |
| PathFinding.InstructionsAt | PS0/src/turtlesoup.ts:40-51 | the same, for every waypoint at once |
| PathFinding.Alternating | PS0/src/turtlesoup.ts:46-47 | even instructions begin with "turn " and odd ones with "forward " |
| PathFinding.LaterTurnsInRange | PS0/src/turtlesoup.ts:43-50 | every turn value after the first lies in [0, 360) when atan2 is in range |
| PathFinding.FirstTurnInRange | PS0/src/turtlesoup.ts:38-44 | the first turn value lies in [0, 360) when the turtle's heading is at most 180 |
| PathFinding.FirstTurnFromWoundHeading | PS0/src/turtlesoup.ts:38-44 | for a heading of 540 or more the first turn value lies in (-360, 0] |
| PathFinding.StraightAhead | PS0/src/turtlesoup.ts:35-55 | from (0,0) facing 0 to (10,0) the result is ["turn 0.00", "forward 10.00"] |
| PathFinding.FindPath | PS0/src/turtlesoup.ts:35-55 | does not modify the turtle; returns the recursive definition's result, of length 2 per waypoint, pair by pair as in InstructionPair |
| Render.Lines | PS0/src/turtlesoup.ts:117-124 | one line element per segment |
| Render.LinesAt | PS0/src/turtlesoup.ts:118-124 | line i is segment i moved by (250, 250), stroked in the segment's colour, width 2 |
| Render.LinesAppend | PS0/src/turtlesoup.ts:117-124 | rendering is compatible with concatenating paths |
| Render.LineRoundTrip | PS0/src/turtlesoup.ts:111-123 | the segment can be recovered from its line element by undoing the offset |
| Render.LinesConnected | PS0/src/turtlesoup.ts:118-124 | a connected path renders as lines each starting where the previous ends |
| Render.ArtRendered | PS0/src/turtlesoup.ts:181-183 | after drawPersonalArt on a turtle with an empty path, sixteen lines are rendered in the stroke colours, in order |
| Render.GenerateHTML | PS0/src/turtlesoup.ts:108-141 | a 500 by 500 canvas with one line per segment in path order, each moved by (250, 250) in its colour and width 2; an empty path gives no lines |

## Left out

- saveHTMLToFile, openHTML and main: file output, launching a browser and console output are I/O. Only the compositions of main are stated, in Render.ArtRendered.
- The textual HTML of generateHTML is not modelled. The template text and the printing of numbers inside attributes are left out; the page is its `<svg>` element with the attribute values.
- Floating point is not modelled. Numbers are reals, so rounding error, NaN and Infinity do not occur. `Math.sin`, `Math.cos`, `Math.atan2`, `Math.sqrt` and `toFixed` are uninterpreted.
- Drivers.DrawApproximateCircle: numSides is an integer. For a positive fractional count the loop of the source runs ceil(numSides) times, with a turn of 360 / numSides; that case is not modelled. A negative fractional count runs the loop zero times, like a non-positive integer.
- Turtles.Turtle: turtle.ts is not part of this model. The turtle is modelled as working in degrees, never reducing its heading, and drawing one segment per forward. The initial pen colour is a constructor parameter because its default value is not known here.
- Geometry.ChordLengthDegenerate: properties of the chord that need real trigonometry are not stated, for example the chord of 60 degrees equalling the radius. Sine is uninterpreted.
- Geometry.SquaredDistanceProperties: it does not state that the squared distance is zero only for equal points, and it does not state the triangle inequality.
