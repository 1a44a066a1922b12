/** The segment-annotation state machine of superMeasure.js: a window of the most
    recent line vertices, the running total-length baseline, and the placed labels. */
module SuperMeasure {
  import opened Geometry

  /** The tool name for which measure events are processed. */
  const Distance: string := "distance"

  /** The label text: the segment length rendered with `toFixed(3)`. The decimal
      rendering itself is left abstract; the value it renders is kept. */
  datatype LabelText = Fixed3(value: real)

  /** The label rotation that getSlope computes from the window's first two points,
      kept uninterpreted. */
  datatype Angle = SlopeOf(first: Point, second: Point)

  /** One placed segment label: its text, its rotation and its anchor point. */
  datatype Label = Label(text: LabelText, angle: Angle, position: Point)

  /** The three module-level variables of the widget as one value. */
  datatype Session = Session(segs: seq<Point>, prevLineLength: real, measureText: seq<Label>)

  /** The payload a `measure` event delivers, with the active tool's name. */
  datatype MeasureEvent = MeasureEvent(toolName: string, geometry: Point, values: real)

  /** What one `measure` event did: nothing (another tool is active), placed a label,
      or stopped on a window holding one point (getSlope then reads a missing entry
      and throws, after the window and the baseline were already updated). */
  datatype MeasureOutcome = Ignored | Labelled(placed: Label) | MissingSecondPoint

  /** The state the widget starts in, and the state every tool change returns to. */
  const Initial: Session := Session([], 0.0, [])

  /** Push `p` onto the window, then drop the oldest entry if the window holds
      more than two: a first-in first-out window that evicts at most one. */
  function Push(segs: seq<Point>, p: Point): (r: seq<Point>)
    ensures |r| >= 1 && r[|r| - 1] == p
    ensures |segs| < 2 ==> r == segs + [p]
    ensures |segs| >= 2 ==> |r| == |segs| && r[..|r| - 1] == segs[1..]
    ensures |segs| <= 2 ==> |r| <= 2
  {
    var grown := segs + [p];
    if |grown| > 2 then grown[1..] else grown
  }

  /** The label for a window of at least two points whose newest segment measured
      `length`: placed at the midpoint of the first two points, rotated by their slope. */
  function SegmentLabel(segs: seq<Point>, length: real): Label
    requires |segs| >= 2
  {
    Label(Fixed3(length), SlopeOf(segs[0], segs[1]), Midpoint(segs[0], segs[1]))
  }

  /** Whether a measure event from session `s` places a label: the distance tool is
      active and the window already holds a point, so the push fills it. */
  predicate PlacesLabel(s: Session, e: MeasureEvent)
  {
    e.toolName == Distance && |s.segs| >= 1
  }

  /** The `measure` handler on the session value. */
  function OnMeasure(s: Session, e: MeasureEvent): (r: Session)
    ensures e.toolName != Distance ==> r == s
    ensures e.toolName == Distance ==> r.segs == Push(s.segs, e.geometry)
    ensures e.toolName == Distance ==> r.prevLineLength == e.values
    ensures |r.measureText| == |s.measureText| + (if PlacesLabel(s, e) then 1 else 0)
    ensures r.measureText[..|s.measureText|] == s.measureText
    ensures PlacesLabel(s, e) ==>
      |r.segs| >= 2 &&
      r.measureText[|s.measureText|] ==
        Label(Fixed3(e.values - s.prevLineLength), SlopeOf(r.segs[0], r.segs[1]), Midpoint(r.segs[0], r.segs[1]))
  {
    if e.toolName != Distance then s
    else
      var segs := Push(s.segs, e.geometry);
      var segLength := e.values - s.prevLineLength;
      var labels := if |segs| < 2 then s.measureText else s.measureText + [SegmentLabel(segs, segLength)];
      Session(segs, e.values, labels)
  }

  /** The `tool-change` handler on the session value. */
  function OnToolChange(s: Session): (r: Session)
    ensures r.segs == [] && r.prevLineLength == 0.0 && r.measureText == []
  {
    Initial
  }

  /** The net effect of the first-cursor capture: one push of the cursor position,
      with no eviction. */
  function OnCursorCapture(s: Session, cursor: Point): (r: Session)
    ensures |r.segs| == |s.segs| + 1 && r.segs[..|s.segs|] == s.segs && r.segs[|s.segs|] == cursor
    ensures r.prevLineLength == s.prevLineLength && r.measureText == s.measureText
  {
    Session(s.segs + [cursor], s.prevLineLength, s.measureText)
  }

  /** A processed measure event on a window of one or two points leaves exactly the
      previous endpoint and the new one, and labels the segment between them. */
  lemma LabelOnNewestSegment(s: Session, e: MeasureEvent)
    requires e.toolName == Distance && 1 <= |s.segs| <= 2
    ensures OnMeasure(s, e).segs == [s.segs[|s.segs| - 1], e.geometry]
    ensures OnMeasure(s, e).measureText ==
      s.measureText + [Label(Fixed3(e.values - s.prevLineLength),
                             SlopeOf(s.segs[|s.segs| - 1], e.geometry),
                             Midpoint(s.segs[|s.segs| - 1], e.geometry))]
  {
  }

  /** Three pushes into an empty window leave the last two, in order. */
  lemma PushEvictsOldest(p1: Point, p2: Point, p3: Point)
    ensures Push(Push(Push([], p1), p2), p3) == [p2, p3]
  {
  }

  /** A tool change forgets everything: its result does not depend on the prior
      state, and applying it twice is applying it once. */
  lemma ToolChangeForgets(s: Session, t: Session)
    ensures OnToolChange(s) == OnToolChange(t)
    ensures OnToolChange(OnToolChange(s)) == OnToolChange(s)
  {
  }

  /** Without the seed push, the first processed event after a tool change places
      no label: the window then holds only that event's endpoint. */
  lemma NoSeedNoLabel(s: Session, e: MeasureEvent)
    requires e.toolName == Distance
    ensures OnMeasure(OnToolChange(s), e) == Session([e.geometry], e.values, [])
  {
  }

  /** The seed push does not evict: on a full window it yields three points, and the
      next processed event keeps three and labels the two oldest of them. */
  lemma CaptureOnFullWindow(a: Point, b: Point, c: Point, e: MeasureEvent, base: real, labels: seq<Label>)
    requires e.toolName == Distance
    ensures OnCursorCapture(Session([a, b], base, labels), c).segs == [a, b, c]
    ensures OnMeasure(OnCursorCapture(Session([a, b], base, labels), c), e) ==
      Session([b, c, e.geometry], e.values,
               labels + [Label(Fixed3(e.values - base), SlopeOf(b, c), Midpoint(b, c))])
  {
    var s := OnCursorCapture(Session([a, b], base, labels), c);
    assert Push(s.segs, e.geometry) == [b, c, e.geometry];
  }

  /** The widget: the three variables of superMeasure.js and its three event handlers. */
  class MeasureWidget {
    var segs: seq<Point>
    var prevLineLength: real
    var measureText: seq<Label>

    /** The widget's state as a session value. */
    function State(): Session
      reads this
    {
      Session(segs, prevLineLength, measureText)
    }

    /** The variables as the page script first sets them. */
    constructor ()
      ensures State() == Initial
    {
      segs := [];
      prevLineLength := 0.0;
      measureText := [];
    }

    /** The `measure` handler. */
    method Measure(e: MeasureEvent) returns (outcome: MeasureOutcome)
      modifies this
      ensures State() == OnMeasure(old(State()), e)
      ensures outcome == Ignored <==> e.toolName != Distance
      ensures outcome.Labelled? <==> PlacesLabel(old(State()), e)
      ensures outcome.Labelled? ==> measureText == old(measureText) + [outcome.placed]
      ensures outcome == MissingSecondPoint ==> measureText == old(measureText) && |segs| == 1
    {
      if e.toolName != Distance {
        return Ignored;
      }
      segs := segs + [e.geometry];
      if |segs| > 2 {
        segs := segs[1..];
      }
      var segLength := e.values - prevLineLength;
      prevLineLength := e.values;
      if |segs| < 2 {
        return MissingSecondPoint;
      }
      var placed := Label(Fixed3(segLength), SlopeOf(segs[0], segs[1]), Midpoint(segs[0], segs[1]));
      measureText := measureText + [placed];
      outcome := Labelled(placed);
    }

    /** The `tool-change` handler. */
    method ToolChange()
      modifies this
      ensures State() == OnToolChange(old(State()))
      ensures segs == [] && prevLineLength == 0.0 && measureText == []
    {
      prevLineLength := 0.0;
      segs := [];
      measureText := [];
    }

    /** The net effect of getCursorLocation once the cursor first moves: one push. */
    method CaptureCursorLocation(cursor: Point)
      modifies this
      ensures State() == OnCursorCapture(old(State()), cursor)
      ensures segs == old(segs) + [cursor]
      ensures prevLineLength == old(prevLineLength) && measureText == old(measureText)
    {
      segs := segs + [cursor];
    }
  }
}
