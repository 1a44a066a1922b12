# SuperMeasureWidget: segment annotation model

SuperMeasureWidget is a page script for an Esri map with a `Measurement` widget. While
the user draws a distance line, it labels each completed segment with that segment's
own length. The length is not the running total. Each label sits at the segment's midpoint
and is rotated along the segment. All the logic is in `superMeasure.js`. It is a small state machine
over three variables:

- `segs`: the window of the most recent line vertices.
- `prevLineLength`: the total line length as of the previous segment (the baseline).
- `measureText`: the placed labels, as an ordered sequence.

Three event handlers change these variables:

- The `measure` handler. It does nothing unless the distance tool is active. It pushes
  the new endpoint and evicts the oldest point when the window holds more than two. It
  takes the segment length as `total - baseline` and advances the baseline. Then it appends a
  label at the midpoint of the first two window points.
- The `tool-change` handler. It zeroes the baseline, empties the window and clears the labels.
- The first-cursor capture (`getCursorLocation`, armed on `measure-start`). Its net
  effect is one push of the cursor position into the window, with no eviction.

The model has three modules:

- `Geometry` (`geometry.dfy`): points with `real` coordinates and an uninterpreted
  spatial reference, and `Midpoint`.
- `SuperMeasure` (`super_measure.dfy`): the session value (`Session`) and the handlers
  as pure transitions on it (`OnMeasure`, `OnToolChange`, `OnCursorCapture`, with the
  window push `Push`). It also holds the class `MeasureWidget`, whose fields mirror the
  three variables. Its methods `Measure`, `ToolChange` and `CaptureCursorLocation`
  change those fields step by step, as the handlers do, and are proved to match the
  transitions.
- `SessionRuns` (`session_runs.dfy`): properties of runs of measure events. These are
  telescoping segment lengths, append-only labels and the window bound.

Behaviour of the code that the model keeps as written:

- The `measure` handler never checks that the window holds two points. When it holds
  only the new endpoint, `getSlope` reads a missing array entry and throws. By then the
  push and the baseline update have already happened, and no label is added. The
  model's outcome for this case is `MissingSecondPoint`, with exactly that state.
- The seed push never evicts. A seed pushed onto a full window leaves three points. The
  next processed event then keeps three points and labels the two oldest
  (`CaptureOnFullWindow`). The bound of two points holds only for windows that start
  with at most two (`Push`, `WindowStaysBounded`).
- Descriptions of this widget also mention things the code does not have: a unit-conversion
  table with per-unit rounding, a label offset, a fallback angle for vertical segments,
  a guard that asks for a full window before computing geometry, and a unit-change
  handler. `superMeasure.js` contains none of these, and the model follows the code.

## Model

| member | source | states |
|---|---|---|
| `Geometry.Midpoint` | superMeasure.js:48-52 | the label anchor keeps the first point's spatial reference, is equidistant from both points on each axis, and lies between them on each axis |
| `Geometry.MidpointSwap` | superMeasure.js:48-52 | swapping the two points leaves both coordinates of the midpoint unchanged |
| `Geometry.MidpointSame` | superMeasure.js:48-52 | the midpoint of a point with itself is that point |
| `SuperMeasure.Push` | superMeasure.js:74-77 | the new endpoint is last; a window of fewer than two just grows; otherwise exactly the oldest point is dropped and the rest keep their order; at most two in gives at most two out |
| `SuperMeasure.OnMeasure` | superMeasure.js:67-90 | another tool leaves the whole session unchanged; with the distance tool the window is pushed and the baseline becomes the event's total; exactly one label is appended iff the window was non-empty, earlier labels are untouched, and the new label shows total minus old baseline at the midpoint of the first two window points |
| `SuperMeasure.OnToolChange` | superMeasure.js:96-100 | the window is empty, the baseline is 0 and there are no labels |
| `SuperMeasure.OnCursorCapture` | superMeasure.js:36-45 | exactly one point is added at the end of the window with no eviction; baseline and labels are unchanged |
| `SuperMeasure.LabelOnNewestSegment` | superMeasure.js:74-89 | from a window of one or two points, the window becomes the previous endpoint and the new one, and the label for that segment is appended |
| `SuperMeasure.PushEvictsOldest` | superMeasure.js:74-77 | pushing three points into an empty window leaves the last two, in order |
| `SuperMeasure.ToolChangeForgets` | superMeasure.js:96-100 | a tool change gives the same state whatever the prior state, and applying it twice is applying it once |
| `SuperMeasure.NoSeedNoLabel` | superMeasure.js:67-90 | without the seed push, the first processed event after a tool change leaves only its endpoint and places no label |
| `SuperMeasure.CaptureOnFullWindow` | superMeasure.js:36-90 | a seed pushed onto a full window gives three points, and the next processed event keeps three and labels the two oldest |
| `SuperMeasure.MeasureWidget.constructor` | superMeasure.js:29-31 | the widget starts with an empty window, a zero baseline and no labels |
| `SuperMeasure.MeasureWidget.Measure` | superMeasure.js:67-90 | the new fields are `OnMeasure` of the old ones; the outcome is `Ignored` iff another tool is active, is `Labelled` iff a label is placed, and then names the one label appended; `MissingSecondPoint` leaves one point and no new label |
| `SuperMeasure.MeasureWidget.ToolChange` | superMeasure.js:96-100 | the fields become an empty window, a zero baseline and no labels |
| `SuperMeasure.MeasureWidget.CaptureCursorLocation` | superMeasure.js:36-45 | the cursor point is appended to the window; baseline and labels are unchanged |
| `SessionRuns.Telescoping` | superMeasure.js:80-84 | over any run, the final baseline is the last processed total, and the derived segment lengths add up to it minus the starting baseline |
| `SessionRuns.LabelsAppendOnly` | superMeasure.js:86-89 | over any run of measure events, the existing labels remain as a prefix of the label sequence |
| `SessionRuns.WindowStaysBounded` | superMeasure.js:74-77 | over any run of measure events, a window of at most two stays at most two, and a non-empty one stays non-empty |
| `SessionRuns.LabelsShowSegmentLengths` | superMeasure.js:80-89 | once the window is non-empty, the labels a run appends show exactly the derived segment lengths, in event order |
| `SessionRuns.SessionTelescopes` | superMeasure.js:36-100 | after a tool change and the seed push, the label lengths of a run add up to its last processed total, and the window holds one or two points |

## Left out

- Map, basemap, Dojo `require`/`parser` and `Measurement` construction (superMeasure.js:1-27, 61-64): host wiring and UI.
- Listener mechanics of `getCursorLocation` (`map.on`, `.remove()`, the order of the two `mouse-move` listeners): only the net effect, one push, is modelled.
- `GraphicsLayer`, `TextSymbol` and `graphic` rendering: a label is an abstract record of text, angle and position held in a sequence.
- The body of `getSlope` (superMeasure.js:55-59): it is floating-point trigonometry, including `Infinity`/`NaN` for vertical or zero-length segments. The angle is the uninterpreted value `SlopeOf(first, second)`.
- The decimal string of `toFixed(3)`: the text is `Fixed3(value)`, which keeps the real length but not its rendering.
- Floating point: coordinates, totals and lengths are exact reals. Telescoping is exact here; with JavaScript doubles the sum is only approximately the total.
- The active tool comes in as its name (`toolName`). The `getTool()` call and its result object are not modelled.
- Exception propagation: the `getSlope` failure on a one-point window appears only as the outcome `MissingSecondPoint`. How the host reacts to the exception is not modelled.
- Unit conversion and per-unit precision: `superMeasure.js` has no such code, so the model has none.
