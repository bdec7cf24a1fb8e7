# Bar-chart viewport model

A Dafny model of the viewport state of increaser-charts' horizontally
scrolling bar chart, with proofs about it. The chart draws an ordered strip
of stacked bars, each one stride (`barWidth + barSpace`) wide. The strip is
right-anchored: offset 0 puts its right edge on the viewport's right edge.
The component keeps `width`, `height`, `offset`, `oldOffset`, `scrolling` and
`totalWidth`:

- a drag start freezes `oldOffset` at the current offset and sets `scrolling`;
- each drag step scales the pointer movement to content pixels, clamps the
  new offset and writes it to both `offset` and `oldOffset`; optionally it
  scans for the bar under the viewport's midpoint and reports it to
  `onBarSelect`;
- a drag end clears `scrolling`;
- the derived-state hook recomputes `totalWidth` from the props. When a
  `centerBarIndex` is given and no drag is running, it moves the offset to
  centre that bar and keeps the previous offset in `oldOffset`, so the
  renderer can animate the move.

The renderer (`bars.js`) folds segment values into stacked heights and takes
the tallest as the vertical scale. It computes the strip width, the strip's
absolute `left` and the animation shift `offset - oldOffset`.

Files:

- `layout.dfy`, module `Layout`: the renderer's arithmetic (pure functions and lemmas).
- `chart.dfy`, module `Chart`:
  - the clamp, the drag step, the centre-bar scan, the selection notification and the derived-state hook, as pure functions with lemmas;
  - class `BarChart`, whose methods update the component's fields in place.

Pixel quantities are exact `real`s. A JavaScript `undefined` `centerBarIndex`
is `None`. The call to `onBarSelect` is the `Some` value that
`BarChart.OnScroll` returns.

Behaviour of the code a reader may not expect:

- With 10 bars of stride 10, a 40-pixel viewport and offset 35, the scan
  reports bar 4 (`Chart.CenteredBarExample`). In general, a bar `k` centred
  by the hook is reported by the scan as `k - 1`
  (`Chart.CenteringThenSearchIsOneLess`). The scan is `findIndex(...) - 1`,
  while the hook puts `(k - 1/2) * stride` under the midpoint.
- When no bar is past the midpoint, the scan yields -2. It yields -1 when
  bar 0 already is. Neither value is filtered before `onBarSelect`
  (`Chart.SelectionWithoutBars`).
- The drag step divides by `width` without a check of its own. The Scroller
  that calls it (src/components/bar-chart/index.js:64) is mounted only while
  `width` is truthy (src/components/bar-chart/index.js:75); the drag step's
  `requires width > 0` records that. Nothing guards an out-of-range
  `centerBarIndex`: the hook centres any integer index as it is.
- The offset does not always stay between 0 and `totalWidth - width`. There
  are two ways out of that range:
  - Content narrower than the viewport gives a negative offset
    (`totalWidth - width`), and nothing clamps it again (`Chart.Clamp`,
    `Chart.NarrowClampNotMonotone`). A drag to the right then raises it to 0
    (`Chart.NarrowScrollRaisesOffset`).
  - Content that fits can also be left past its end. A resize stores only
    the new size, and the hook keeps the offset when no bar is to be
    centred or a drag is running. Nothing clamps the offset until the next
    drag step or centring. With 10 bars of stride 10, a drag to offset 60
    in a 40-pixel viewport followed by a resize to 50 leaves offset 60, and
    60 + 50 > 100 (`Chart.ResizeLeavesOffsetOutOfBounds`).

## Model

| member | source | states |
|---|---|---|
| `Layout.StackedHeight` | src/components/bar-chart/bars.js:32 | an empty bar has height 0, and non-negative segments never stack below 0; `StackedHeightAppend` and `StackedHeightSingle` fix it as the sum of the values |
| `Layout.StackedHeightAppend` | src/components/bar-chart/bars.js:32 | the stacked height of a bar is additive over its segments |
| `Layout.StackedHeightSingle` | src/components/bar-chart/bars.js:32 | one segment stands as high as its value (with additivity: the height is the sum of the values, 0 for no segments) |
| `Layout.StackedHeightBounds` | src/components/bar-chart/bars.js:32 | with non-negative values, the height is at least every single segment |
| `Layout.Highest` | src/components/bar-chart/bars.js:31-34 | the scale is ≥ 0 and ≥ every bar's stacked height, and is either 0 or the height of some bar |
| `Layout.HighestIsTallestBar` | src/components/bar-chart/bars.js:31-34 | once any bar is above 0, the scale is the height of an actual bar |
| `Layout.TotalWidth` | src/components/bar-chart/bars.js:35 | the strip is empty with no bars and never negative with a non-negative stride; with `TotalWidthAddBar` and `TotalWidthCoversBars` it is one stride per bar, holding every bar's cell |
| `Layout.TotalWidthAddBar` | src/components/bar-chart/bars.js:35 | every further bar widens the strip by exactly one stride |
| `Layout.TotalWidthCoversBars` | src/components/bar-chart/bars.js:35 | with a non-negative stride, each bar's cell `[i*stride, (i+1)*stride]` lies inside `[0, totalWidth]` |
| `Layout.BarStart` | src/components/bar-chart/index.js:109 | bar 0 starts at the strip's left edge, and with a non-negative stride no bar starts before it; with `BarStartMonotone`, under a non-negative stride, later bars start further right |
| `Layout.BarStartMonotone` | src/components/bar-chart/index.js:109 | with a non-negative stride, a higher index never starts further left |
| `Layout.AnimationShift` | src/components/bar-chart/bars.js:41 | the shift carries `oldOffset` to `offset` and is 0 exactly when the two agree |
| `Layout.RenderBars` | src/components/bar-chart/bars.js:20-46 | strip width is `bars.length * stride`; right edge `left + totalWidth` is `width + oldOffset` (right-anchored); scale is `Highest`; the shift carries the view from `oldOffset` to `offset` |
| `Layout.StripCoversViewport` | src/components/bar-chart/bars.js:35-38 | with `oldOffset` in bounds, the strip covers the whole viewport, and at offset 0 the right edges coincide |
| `Chart.Clamp` | src/components/bar-chart/index.js:99-104 | in-bounds candidates pass through; when the viewport fits, the result is in `[0, totalWidth - width]`; with narrow content the result is 0 for negative candidates and a negative `totalWidth - width` otherwise |
| `Chart.ClampIsNearest` | src/components/bar-chart/index.js:126-130 | when the viewport fits, the clamp is the in-bounds offset nearest the candidate |
| `Chart.ClampMonotone` | src/components/bar-chart/index.js:99-104 | when the viewport fits, the clamp keeps the order of candidates |
| `Chart.NarrowClampNotMonotone` | src/components/bar-chart/index.js:101-102 | with narrow content the clamp is not monotone: -1 maps to 0 and 0 maps to a negative offset |
| `Chart.ResizeLeavesOffsetOutOfBounds` | src/components/bar-chart/index.js:90-106 | content that fits can be left past its end: drag to offset 60 with 10 bars of stride 10 in a 40-pixel viewport, resize to 50 and re-render (no centring) keeps offset 60, and 60 + 50 > 100 |
| `Chart.ScrollOffset` | src/components/bar-chart/index.js:98-105 | the drag step's offset is in bounds when the viewport fits and at most 0 when it does not (partners: `ScrollWithoutMovement`, `ScrollDirection`, `FullWidthDragReachesEnd`) |
| `Chart.ScrollWithoutMovement` | src/components/bar-chart/index.js:98-105 | a zero movement leaves an in-bounds offset unchanged |
| `Chart.ScrollDirection` | src/components/bar-chart/index.js:98-105 | from any non-negative offset, rightward movement never increases the offset; from an in-bounds offset, leftward movement never decreases it |
| `Chart.NarrowScrollRaisesOffset` | src/components/bar-chart/index.js:98-102 | with narrow content a rightward drag raises the negative offset -20 (strip 20, viewport 40) to 0 |
| `Chart.FullWidthDragReachesEnd` | src/components/bar-chart/index.js:98-105 | a drag of one viewport width or more pans to the end of the strip: offset 0 rightwards, `totalWidth - width` leftwards |
| `Chart.DragClampsAtStart` | src/components/bar-chart/index.js:98-105 | offset 0, strip 100, viewport 40, movement 1000 gives offset 0, not a negative one |
| `Chart.MidpointUnderRenderedStrip` | src/components/bar-chart/index.js:108 | after a drag step, the scan's `center` is the strip position drawn under the viewport's midpoint, and the shift is 0 |
| `Chart.ContentAtMidpoint` | src/components/bar-chart/index.js:108 | from an in-bounds offset the strip position under the midpoint is at least half a viewport from either end of the strip; at offset 0 it is half a viewport from the right end |
| `Chart.CenteringOffset` | src/components/bar-chart/index.js:125 | the centring offset for bar `k` puts strip position `k*stride - stride/2` under the midpoint |
| `Chart.CenteringExample` | src/components/bar-chart/index.js:120-130 | 10 bars of stride 10, viewport 40, bar 5 gives offset 35 |
| `Chart.FindIndexFrom` | src/components/bar-chart/index.js:109 | the result is the first bar whose left edge is at or past `center`, or -1 if there is none |
| `Chart.CenteredBar` | src/components/bar-chart/index.js:107-109 | the reported index is in `[-2, bars.length - 2]`; -2 exactly when every bar starts before the midpoint; otherwise bar `r+1` starts at or past the midpoint, and bar `r` (when `r ≥ 0`) starts before it |
| `Chart.CenteredBarExample` | src/components/bar-chart/index.js:107-109 | 10 bars of stride 10, viewport 40, offset 35 gives index 4 |
| `Chart.FindIndexInCell` | src/components/bar-chart/index.js:109 | with a positive stride, a `center` in `(BarStart(k-1), BarStart(k)]` makes the scan find exactly bar `k` |
| `Chart.CenteringThenSearchIsOneLess` | src/components/bar-chart/index.js:107-130 | for a bar `k` centred without clamping, the scan reports `k - 1` |
| `Chart.BarSelection` | src/components/bar-chart/index.js:107-113 | `onBarSelect` is called exactly when `selectCenterBarOnScroll` is set and the scanned index differs from `centerBarIndex`, and it gets that index |
| `Chart.SelectionWithoutBars` | src/components/bar-chart/index.js:109-111 | with no bars and no current index, the caller is notified with -2 (no guard) |
| `Chart.DerivedState` | src/components/bar-chart/index.js:116-144 | `totalWidth` is always `bars.length * stride`. Width, height and `scrolling` are kept. With no index, or while dragging, every other field is kept. Otherwise `oldOffset` becomes the previous offset and `offset` the clamped centring offset, in bounds when the viewport fits |
| `Chart.DerivedStateSettles` | src/components/bar-chart/index.js:116-144 | a second run with the same props gives the same offset and moves `oldOffset` up to it; a third run changes nothing |
| `Chart.DerivedStateDuringDrag` | src/components/bar-chart/index.js:124 | while a drag is running, the hook leaves `offset` and `oldOffset` alone |
| `Chart.RenderedWidthMatchesState` | src/components/bar-chart/index.js:120-121 | the hook's `totalWidth` equals the renderer's for the bars' segment lists |
| `Chart.BarChart.constructor` | src/components/bar-chart/index.js:25-31 | initial offsets 0, no drag |
| `Chart.BarChart.Resize` | src/components/bar-chart/index.js:90-93 | a measurement stores width and height and changes nothing else |
| `Chart.BarChart.OnDragStart` | src/components/bar-chart/index.js:63 | sets `scrolling` and freezes `oldOffset` at the current offset (shift 0); nothing else changes |
| `Chart.BarChart.OnDragEnd` | src/components/bar-chart/index.js:65 | clears `scrolling`, offsets unchanged |
| `Chart.BarChart.OnScroll` | src/components/bar-chart/index.js:95-114 | `offset` and `oldOffset` both become the drag step's clamped offset (shift 0), in bounds when the viewport fits. `scrolling`, width, height and `totalWidth` are unchanged. The returned value is the `onBarSelect` notification |
| `Chart.BarChart.Reconcile` | src/components/bar-chart/index.js:116-144 | the component's state becomes `DerivedState` of the props and the old state; during a drag the offsets are untouched |
| `Chart.DragWithoutMovement` | src/components/bar-chart/index.js:63-106 | drag start, re-render, a zero-movement step and a re-render with any props leave an in-bounds offset where it was, with `oldOffset == offset` |

## Left out

- Rendering, styled components and theme merging (index.js:1-22 and 68-78; bars.js:1-18 and 39-45) are presentation only.
- The measurement itself is left out: `getBoundingClientRect` and the window resize listener are DOM I/O. Measured sizes enter through `BarChart.Resize`'s parameters.
- The pre-measurement state: `width` is undefined there, and the children are not rendered. The constructor starts width, height and `totalWidth` at 0 as stand-ins. The drag step requires `width > 0`.
- The `Bar`, `Labels` and `Scroller` components are not part of this model. That includes how drag gestures are captured and how a single bar is positioned. Bar `i` is assumed to start at `i * stride` in the strip, as the scan at index.js:109 does.
- The wiring between the two files is not modelled. index.js passes the segment lists as `items`, while bars.js reads `bars`. The renderer is modelled directly over a sequence of segment lists (`Chart.Props.Items` gives them).
- React's scheduling is not modelled: the hook running before every render and the batching of `setState`. `BarChart.Reconcile` is the hook applied once, and `Chart.DragWithoutMovement` shows one such order.
- IEEE-754 rounding, NaN and non-integer `centerBarIndex` values are not modelled: arithmetic is exact and the index is an integer.
