/**
 * The new-drawing page: a stroke-capture state machine driven by mouse
 * events, the composite mode each stroke is rendered with, and the body of
 * the save request.
 *
 * `Step` and `Run` are the specification on values; the class `NewDrawing`
 * holds the page's state (`tool`, `lines`, the `isDrawing` flag) and its
 * handlers update it in place, each proved to do what `Step` says.
 */
module DrawNew {
  import opened Documents

  const Pen := "pen"
  const Eraser := "eraser"
  const SourceOver := "source-over"
  const DestinationOut := "destination-out"

  /** One stroke: the tool it was drawn with and its flat x, y coordinate list. */
  datatype Line = Line(tool: string, points: seq<int>)

  /** The page's capture state. */
  datatype Capture = Capture(tool: string, lines: seq<Line>, isDrawing: bool)

  /** The events the handlers react to; `SelectTool` is the tool picker's onChange. */
  datatype Event = MouseDown(x: int, y: int) | MouseMove(x: int, y: int) | MouseUp | SelectTool(tool: string)

  /** The state the page mounts with. */
  const Start := Capture(Pen, [], false)

  /** A stroke's point list holds whole x, y pairs, at least the one it started with. */
  predicate PointsOk(points: seq<int>) {
    |points| >= 2 && |points| % 2 == 0
  }

  /** While a stroke is open there is a last line to extend. */
  predicate Consistent(s: Capture) {
    s.isDrawing ==> s.lines != []
  }

  /** The invariant every event keeps. */
  predicate WellFormed(s: Capture) {
    Consistent(s) && forall i :: 0 <= i < |s.lines| ==> PointsOk(s.lines[i].points)
  }

  /** How many lines are closed: every line but the open one while drawing. */
  function Frozen(s: Capture): nat
    requires Consistent(s)
  {
    if s.isDrawing then |s.lines| - 1 else |s.lines|
  }

  /**
   * One event. Mouse-down opens a line at the pointer with the current tool;
   * mouse-move, only while drawing, appends the pointer to the last line;
   * mouse-up closes the stroke; picking a tool changes only the tag used by
   * later lines.
   */
  function Step(s: Capture, e: Event): (r: Capture)
    requires Consistent(s)
    ensures Consistent(r)
    ensures |r.lines| >= |s.lines|
    ensures Frozen(r) >= Frozen(s)
    ensures forall i :: 0 <= i < Frozen(s) ==> r.lines[i] == s.lines[i]
    ensures forall i :: 0 <= i < |s.lines| ==>
              r.lines[i].tool == s.lines[i].tool && s.lines[i].points <= r.lines[i].points
    ensures WellFormed(s) ==> WellFormed(r)
  {
    match e
    case MouseDown(x, y) =>
      s.(isDrawing := true, lines := s.lines + [Line(s.tool, [x, y])])
    case MouseMove(x, y) =>
      if !s.isDrawing then s
      else
        var last := s.lines[|s.lines| - 1];
        s.(lines := s.lines[..|s.lines| - 1] + [last.(points := last.points + [x, y])])
    case MouseUp =>
      s.(isDrawing := false)
    case SelectTool(t) =>
      s.(tool := t)
  }

  /** A sequence of events, processed one at a time. */
  function Run(s: Capture, es: seq<Event>): (r: Capture)
    requires Consistent(s)
    ensures Consistent(r)
    decreases |es|
  {
    if es == [] then s else Run(Step(s, es[0]), es[1..])
  }

  /** Every event sequence keeps the point lists whole and a line open only when one exists. */
  lemma {:induction false} RunKeepsWellFormed(s: Capture, es: seq<Event>)
    requires WellFormed(s)
    ensures WellFormed(Run(s, es))
    decreases |es|
  {
    if es != [] {
      RunKeepsWellFormed(Step(s, es[0]), es[1..]);
    }
  }

  /**
   * Lines are never removed and never re-tagged, and a line's points only
   * grow at the end: erasing is a new line, not a deletion.
   */
  lemma {:induction false} RunNeverRemovesLines(s: Capture, es: seq<Event>)
    requires Consistent(s)
    ensures |Run(s, es).lines| >= |s.lines|
    ensures forall i :: 0 <= i < |s.lines| ==>
              Run(s, es).lines[i].tool == s.lines[i].tool && s.lines[i].points <= Run(s, es).lines[i].points
    decreases |es|
  {
    if es != [] {
      var t := Step(s, es[0]);
      RunNeverRemovesLines(t, es[1..]);
    }
  }

  /** A closed line never changes again: after mouse-up every existing line is final. */
  lemma {:induction false} RunKeepsFrozenLines(s: Capture, es: seq<Event>)
    requires Consistent(s)
    ensures Frozen(Run(s, es)) >= Frozen(s)
    ensures forall i :: 0 <= i < Frozen(s) ==> Run(s, es).lines[i] == s.lines[i]
    decreases |es|
  {
    if es != [] {
      var t := Step(s, es[0]);
      RunKeepsFrozenLines(t, es[1..]);
    }
  }

  /** Mouse-down at (x0, y0) then mouse-move to (x1, y1) leaves exactly one new line [x0, y0, x1, y1]. */
  lemma StrokeAccumulates(s: Capture, x0: int, y0: int, x1: int, y1: int)
    requires Consistent(s)
    ensures Run(s, [MouseDown(x0, y0), MouseMove(x1, y1)]).lines == s.lines + [Line(s.tool, [x0, y0, x1, y1])]
    ensures Run(s, [MouseDown(x0, y0), MouseMove(x1, y1)]).isDrawing
  {
    var a := Step(s, MouseDown(x0, y0));
    var b := Step(a, MouseMove(x1, y1));
    assert [MouseDown(x0, y0), MouseMove(x1, y1)][1..] == [MouseMove(x1, y1)];
    assert [MouseMove(x1, y1)][1..] == [];
    assert Run(a, [MouseMove(x1, y1)]) == b;
    assert a.lines[..|a.lines| - 1] == s.lines;
    assert [x0, y0] + [x1, y1] == [x0, y0, x1, y1];
  }

  /** After mouse-up, mouse-moves change nothing until the next mouse-down. */
  lemma {:induction false} MovesAfterUpChangeNothing(s: Capture, moves: seq<Event>)
    requires Consistent(s)
    requires forall k :: 0 <= k < |moves| ==> moves[k].MouseMove?
    ensures Run(s, [MouseUp] + moves) == s.(isDrawing := false)
  {
    var idle := Step(s, MouseUp);
    assert ([MouseUp] + moves)[1..] == moves;
    IdleMovesChangeNothing(idle, moves);
  }

  lemma {:induction false} IdleMovesChangeNothing(s: Capture, moves: seq<Event>)
    requires !s.isDrawing
    requires forall k :: 0 <= k < |moves| ==> moves[k].MouseMove?
    ensures Run(s, moves) == s
    decreases |moves|
  {
    if moves != [] {
      assert Step(s, moves[0]) == s;
      IdleMovesChangeNothing(s, moves[1..]);
    }
  }

  /** Picking a tool tags only the lines mouse-down opens later with it. */
  lemma ToolAppliesToLaterLines(s: Capture, t: string, x: int, y: int)
    requires Consistent(s)
    ensures Run(s, [SelectTool(t), MouseDown(x, y)]).lines == s.lines + [Line(t, [x, y])]
  {
    var a := Step(s, SelectTool(t));
    assert [SelectTool(t), MouseDown(x, y)][1..] == [MouseDown(x, y)];
    assert Run(a, [MouseDown(x, y)]) == Step(a, MouseDown(x, y));
  }

  /** The composite mode a line is rendered with. */
  function CompositeOp(tool: string): (op: string)
    ensures op == DestinationOut <==> tool == Eraser
    ensures op == DestinationOut || op == SourceOver
  {
    if tool == Eraser then DestinationOut else SourceOver
  }

  /** What the layer draws for one line: its points and its composite mode. */
  datatype Shape = Shape(points: seq<int>, compositeOp: string)

  /** The layer: one shape per line, in order; erased content is still drawn, only blended away. */
  function Shapes(lines: seq<Line>): (r: seq<Shape>)
    ensures |r| == |lines|
    ensures forall i :: 0 <= i < |r| ==>
              r[i].points == lines[i].points && r[i].compositeOp == CompositeOp(lines[i].tool)
  {
    seq(|lines|, i requires 0 <= i < |lines| => Shape(lines[i].points, CompositeOp(lines[i].tool)))
  }

  /**
   * The request `handleSaveDrawing` sends: a POST whose body carries the
   * user's id, the name field's text and the serialized stage, unmodified.
   * No check of the name happens first, so an empty name is posted as is.
   */
  function SaveDrawingRequest(userId: string, drawingName: string, drawingData: string): (r: SaveRequest)
    ensures r.verb == "POST"
    ensures r.body.userId == userId && r.body.drawingName == drawingName && r.body.drawingData == drawingData
  {
    SaveRequest("POST", SaveBody(userId, drawingName, drawingData))
  }

  /** The page's mutable state and its event handlers. */
  class NewDrawing {
    var tool: string
    var lines: seq<Line>
    var isDrawing: bool

    function State(): Capture
      reads this
    {
      Capture(tool, lines, isDrawing)
    }

    ghost predicate Valid()
      reads this
    {
      WellFormed(State())
    }

    constructor ()
      ensures Valid() && State() == Start
    {
      tool := Pen;
      lines := [];
      isDrawing := false;
    }

    method HandleMouseDown(x: int, y: int)
      requires Valid()
      modifies this
      ensures Valid()
      ensures isDrawing && tool == old(tool)
      ensures lines == old(lines) + [Line(old(tool), [x, y])]
      ensures State() == Step(old(State()), MouseDown(x, y))
    {
      isDrawing := true;
      lines := lines + [Line(tool, [x, y])];
    }

    method HandleMouseMove(x: int, y: int)
      requires Valid()
      modifies this
      ensures Valid()
      ensures !old(isDrawing) ==> State() == old(State())
      ensures old(isDrawing) ==>
                && isDrawing && tool == old(tool)
                && |lines| == |old(lines)|
                && lines[..|lines| - 1] == old(lines)[..|lines| - 1]
                && lines[|lines| - 1].tool == old(lines)[|lines| - 1].tool
                && lines[|lines| - 1].points == old(lines)[|lines| - 1].points + [x, y]
      ensures State() == Step(old(State()), MouseMove(x, y))
    {
      if !isDrawing {
        return;
      }
      var lastLine := lines[|lines| - 1];
      lastLine := lastLine.(points := lastLine.points + [x, y]);
      lines := lines[..|lines| - 1] + [lastLine];
    }

    method HandleMouseUp()
      requires Valid()
      modifies this
      ensures Valid()
      ensures !isDrawing && tool == old(tool) && lines == old(lines)
      ensures State() == Step(old(State()), MouseUp)
    {
      isDrawing := false;
    }

    method SetTool(t: string)
      requires Valid()
      modifies this
      ensures Valid()
      ensures tool == t && lines == old(lines) && isDrawing == old(isDrawing)
      ensures State() == Step(old(State()), SelectTool(t))
    {
      tool := t;
    }
  }
}
