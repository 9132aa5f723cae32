# PanSVG viewport controller, modelled in Dafny

`PanSVG` is a custom element that shows a large map image inside a pannable, zoomable
SVG. Its `#data` record keeps a small amount of state: the pan offset (`offsetX`, `offsetY`),
the zoom `scale`, the drag anchor (`startX`, `startY`, `isDragging`), the auto-tour flag
`playing` with its start time and keyframe table, and the readiness counters (`totalImages`,
`loadedImages`, `ready`). Event handlers change this state in place:

- `#updateTransform` clamps each offset to `[min(0, view − content·scale), 0]` after every change;
- the wheel listener scales by `1 − deltaY·0.001`, bounds the scale to `[minScale, 5]` and
  shifts the offset so that the content point under the cursor stays put;
- `onDown`/`onMove`/`onUp` drag the content relative to an anchor taken at press time;
- `animate` finds the keyframe segment holding the looping progress with `findIndex`,
  falls back to segment 0, and interpolates linearly;
- `#checkReady` counts load and error signals and sets `ready` once every created image has settled.

The project has four modules:

- `ViewportMath` (`viewport_math.dfy`): the clamp, the minimum scale, the committed zoom scale
  and the cursor-anchored zoom offset, as functions over exact reals.
- `Tour` (`tour.dfy`): the keyframe table, `lerp`, the `findIndex` search, the segment fall-back,
  JavaScript's `% 1`, and the tour's loop progress.
- `Readiness` (`readiness.dfy`): the ready counter as a value, with its step function and a
  fold over any sequence of load/error signals.
- `PanSvgElement` (`pan_svg.dfy`): class `PanSvg` with the element's fields. Its methods are the
  handlers, and each one requires and ensures `Valid()`. `Valid()` is `Configured()` plus offsets
  `≤ 0`. `Configured()` holds `0 < scale ≤ 5`, a keyframe table a tick can divide by, a consistent
  ready counter, `totalImages` equal to the number of images created, and the first image
  being the 4000×2000 map. `UpdateTransform` needs only
  `Configured()`, because its callers change the offsets just before it clamps them.
  It establishes `Valid()`.

The content size is the first image's 4000×2000. Viewport width and height, pointer and cursor
positions, wheel deltas, frame timestamps, `window.innerHeight` and the URL `play` flag are
parameters. The source reads the viewport size in two ways: `clientWidth`/`clientHeight` for
the minimum scale and `getBoundingClientRect` for the clamp. The model takes both to be the
same pair of numbers.

Two facts follow from the code as written:

- The option table (`js/visualizer.js:30-43`) has 12 entries. Setup therefore creates
  2 × 12 = 24 images, and `ready` waits for 24 load-or-error signals.
- `WheelExample` zooms an 800×600 viewport from scale 0.3 at offset (0, 0), with `deltaY` −100
  at cursor (400, 300). The new scale is 0.33, and the pre-clamp offsets are −40 on x and
  −30 on y.

## Model

| member | source | states |
|---|---|---|
| `ViewportMath.MinOffset` | js/visualizer.js:247-248 | the lower clamp bound is ≤ 0 and ≤ view − extent, and equals one of the two |
| `ViewportMath.ClampOffset` | js/visualizer.js:247-251 | the clamped offset lies in [MinOffset, 0]; it is unchanged when already inside, the lower bound when below, 0 when above |
| `ViewportMath.ClampIdempotent` | js/visualizer.js:250-251 | clamping twice gives the same offset as clamping once |
| `ViewportMath.MinScale` | js/visualizer.js:217-220 | at the minimum scale the content covers the viewport on both axes, exactly on one of them |
| `ViewportMath.MinScaleLeast` | js/visualizer.js:217-220 | every scale at which the content covers the viewport is at least the minimum scale |
| `ViewportMath.WheelFactor` | js/visualizer.js:215 | the per-event scale multiplier is above 1 for negative deltaY (zoom in), below 1 for positive deltaY, 1 for zero, and 1.1 for deltaY −100 |
| `ViewportMath.ZoomScale` | js/visualizer.js:215-222 | the committed scale is positive and ≤ 5; it is ≥ minScale when minScale ≤ 5 and exactly 5 otherwise; it is the raw product when that is in bounds, minScale below them and 5 above them |
| `ViewportMath.ZoomOffset` | js/visualizer.js:224-227 | before the clamp, the content coordinate under the cursor, (m − offset)/scale, is the same before and after the zoom |
| `ViewportMath.ClampCoversView` | js/visualizer.js:242-251 | at a scale ≥ minScale, a clamped offset keeps the content reaching the far edge of the viewport on both axes |
| `ViewportMath.WheelExample` | js/visualizer.js:213-229 | zoom from 0.3 at (0,0) with deltaY −100 at (400,300) in 800×600: minScale 0.3, scale 0.33, offsets −40 and −30, both left unchanged by the clamp |
| `Tour.TourFrames` | js/visualizer.js:21-27 | the element's keyframe table has five frames with times strictly increasing from 0 to 1; the first and last hold the same offset (−168, −innerHeight·0.1) |
| `Tour.Lerp` | js/visualizer.js:129 | lerp gives a at 0 and b at 1, and stays between a and b for s in [0,1] |
| `Tour.InSegment` | js/visualizer.js:140-141 | the findIndex predicate: a matching frame's time range holds the progress and has a later end time; the last frame, whose successor is missing, never matches |
| `Tour.FindIndexFrom` | js/visualizer.js:139-142 | the result is −1 exactly when no frame's segment holds the progress; otherwise it is a matching index with no match before it (the last frame never matches) |
| `Tour.Segment` | js/visualizer.js:139-146 | the tick uses segment 0 when findIndex gives −1, otherwise the first matching segment; the segment has a successor frame with a different time |
| `Tour.LocalT` | js/visualizer.js:147 | localT is the fraction of the segment's time span at which the progress lies: start time + localT·span = progress, 0 at the start frame and 1 at the end frame |
| `Tour.SegmentPoint` | js/visualizer.js:145-150 | the segment's interpolated offset is the start keyframe's offset at its start time and the end keyframe's offset at its end time |
| `Tour.CameraAt` | js/visualizer.js:139-150 | the pre-clamp offset of a tick is the interpolation of the first segment holding the progress, or of segment 0 when no segment holds it |
| `Tour.FirstMatchIsSegment` | js/visualizer.js:139-143 | a frame that starts the first segment holding the progress is the segment the tick uses |
| `Tour.FoundFrom` | js/visualizer.js:139-143 | in a well-formed table, a progress between frame `from` and the last frame is found by findIndex |
| `Tour.SegmentOf` | js/visualizer.js:139-146 | in a well-formed table, the segment holding the progress is the one findIndex returns and the tick uses |
| `Tour.TourTick` | js/visualizer.js:136-150 | for a well-formed table and progress in [0,1): findIndex succeeds, t[i] ≤ progress < t[i+1], localT lies in [0,1), and the offset lies between the two keyframes on each axis |
| `Tour.KnotContinuity` | js/visualizer.js:145-150 | at an interior keyframe's time the tick gives that keyframe's offset, and the previous segment's interpolation ends at the same point |
| `Tour.TourLoopCloses` | js/visualizer.js:21-27 | the last segment of the element's tour ends at the offset where the tour starts, (−168, −innerHeight·0.1) |
| `Tour.TruncRem1` | js/visualizer.js:136-137 | JavaScript `x % 1` lies in (−1, 1), keeps the sign of x, and differs from x by an integer |
| `Tour.Progress` | js/visualizer.js:136-137 | for a timestamp not before the start time, the progress lies in [0,1) |
| `Tour.ProgressPeriodic` | js/visualizer.js:136-137 | one animation duration later the progress is the same |
| `Readiness.CheckReady` | js/visualizer.js:59-67 | one #checkReady step adds one to the count and keeps the total; a set flag stays set, a clear flag becomes set exactly when the count reaches the total; a consistent counter (ready ⇔ count > 0 ∧ count ≥ total) stays consistent |
| `Readiness.Settle` | js/visualizer.js:106-107 | after a sequence of load or error signals the total is unchanged and the count has grown by the sequence's length |
| `Readiness.SettleCounts` | js/visualizer.js:59-67 | from a consistent counter, after any sequence of signals ready holds exactly when the count is positive and has reached the total |
| `Readiness.SignalKindIrrelevant` | js/visualizer.js:106-107 | loads and errors are counted alike: from any counter, two signal sequences of equal length leave the same counter |
| `Readiness.ReadyFiresOnce` | js/visualizer.js:59-67 | from zero settled images, ready holds after k signals exactly when k ≥ total, and the k-th signal switches it on exactly when k = total |
| `Readiness.ReadyMonotone` | js/visualizer.js:62-63 | once ready, no later signal clears it |
| `PanSvgElement.AllImages` | js/visualizer.js:113-119 | setup creates 2 × 12 = 24 images; the first is the light map of size 4000×2000 |
| `PanSvgElement.PointerPosNormalises` | js/visualizer.js:167-170 | a mouse event at q and a touch event whose first touch is q give the same position q |
| `PanSvgElement.PanSvg.constructor` | js/visualizer.js:2-27 | initial state: not playing, start time 0, no images, offset (0,0), scale 1, not dragging, and the keyframe table for the given window height |
| `PanSvgElement.PanSvg.ConnectedCallback` | js/visualizer.js:46-54 | connecting creates all images, counts them in totalImages, and sets playing when the play flag is given |
| `PanSvgElement.PanSvg.SetupImages` | js/visualizer.js:89-123 | the nested theme/option loops push every image in order and count each one |
| `PanSvgElement.PanSvg.SetupAnimation` | js/visualizer.js:156-160 | playing becomes true when the play flag is given and is otherwise unchanged |
| `PanSvgElement.PanSvg.CheckReady` | js/visualizer.js:59-67 | the element's counters advance by exactly one #checkReady step, and the invariant is kept |
| `PanSvgElement.PanSvg.OnImageSettled` | js/visualizer.js:105-107 | a load or an error signal advances the counters by one step of the same kind |
| `PanSvgElement.PanSvg.UpdateTransform` | js/visualizer.js:237-251 | both offsets become their clamps for this viewport and scale; scale is not touched; an already clamped state is left unchanged |
| `PanSvgElement.PanSvg.Animate` | js/visualizer.js:131-152 | when not playing nothing changes; otherwise the start time is set if it was 0, and the offsets are the clamp of CameraAt at the loop progress |
| `PanSvgElement.PanSvg.OnDown` | js/visualizer.js:172-178 | dragging starts, and the anchor is the pointer position minus the current offset |
| `PanSvgElement.PanSvg.OnMove` | js/visualizer.js:180-189 | when not dragging nothing changes; otherwise each offset is the clamp of pointer minus anchor |
| `PanSvgElement.PanSvg.OnUp` | js/visualizer.js:191-199 | dragging stops and nothing else changes, so a second call (or mouseleave after mouseup) changes nothing |
| `PanSvgElement.PanSvg.DragRoundTrip` | js/visualizer.js:172-189 | a press followed by a move to the same point leaves a clamped offset exactly where it was |
| `PanSvgElement.PanSvg.Wheel` | js/visualizer.js:210-231 | the scale becomes ZoomScale of the old one; the offsets become the clamped cursor-anchored offsets; when minScale ≤ 5 the content covers the viewport |

## Left out

- DOM and SVG plumbing is not modelled: element creation, attributes, class names, cursor
  styling and the `matrix(...)` transform string. None of it affects the state.
- Event wiring is not modelled: `addEventListener`, `preventDefault`, `requestAnimationFrame`
  rescheduling and `URLSearchParams`. Each handler is a method, and the play flag is a parameter.
- Browser geometry queries are parameters. `clientWidth`/`clientHeight` are assumed to equal the
  bounding rectangle, and the content size is the constant 4000×2000 rather than the parsed
  `width`/`height` attributes. `Valid()` ties the first image's attributes to that constant.
- PointerPos: the definition that `PointerPosNormalises` is about, with no row of its own. Touch points are
  client (viewport) coordinates while mouse positions are offsets relative to the element, so the
  two agree on a physical point only when the svg sits at the viewport origin; a drag is unaffected,
  since its anchor and its moves come from the same kind of event. Real
  `TouchEvent` vs `MouseEvent` objects are not modelled: it takes an event record with an offset
  position and a list of touch points, and uses the first touch point when there is one.
- Floating point is not modelled: rounding, `NaN` and `Infinity` (for example, a division by a
  zero scale). Numbers are exact reals, and the JavaScript `% 1` on the progress is written out
  with `Floor`.
- Wheel and ZoomScale: require the viewport to be non-empty on at least one axis, because a
  wheel event cannot target an svg of zero size on both. With a 0×0 viewport the minimum scale
  would be 0, and a later division by the scale could be a division by zero, which exact reals
  cannot express. A viewport empty on one axis only, such as 0×600, is covered.
- SetupImages and ConnectedCallback: require that there are no images yet and that no image has
  settled. Attaching the element a second time, which would append the images again, is not modelled.
- KnotContinuity: states continuity as the two neighbouring segment formulas agreeing at the
  knot, not as a statement about limits.
- Animate: the start-time check treats a start time of 0 as "not started", as the code does.
  The `ensures` states the check as the code has it, and no lemma goes further.
