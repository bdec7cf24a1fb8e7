/**
 * Viewport state of the horizontally scrolling bar chart
 * (src/components/bar-chart/index.js).
 *
 * Coordinates are right-anchored: offset 0 puts the right edge of the
 * content strip on the right edge of the viewport, and a larger offset
 * shows bars further to the left. The component keeps `width`, `height`,
 * `offset`, `oldOffset`, `scrolling` and `totalWidth`; drag callbacks update
 * them in place and the derived-state hook rebuilds them from the props.
 */
module Chart {
  import opened Layout

  datatype Option<T> = None | Some(value: T)

  /** A bar of the chart's props: its `label` (`caption` here, since `label` is a Dafny keyword) and its stacked segments. */
  datatype BarEntry = BarEntry(caption: string, items: seq<Segment>)

  /**
   * The props the core reads. `centerBarIndex` is `None` where the caller
   * leaves it undefined; `onBarSelect` is not a field: the notification is
   * the value `OnScroll` returns.
   */
  datatype Props = Props(bars: seq<BarEntry>, barWidth: real, barSpace: real,
                         centerBarIndex: Option<int>, selectCenterBarOnScroll: bool)
  {
    /** The stride from one bar's left edge to the next. */
    function Stride(): real { barWidth + barSpace }

    /** The per-bar segment lists handed to the renderer. */
    function Items(): (items: seq<Bar>)
      ensures |items| == |bars|
    {
      seq(|bars|, i requires 0 <= i < |bars| => bars[i].items)
    }
  }

  /** The component's state record. */
  datatype ChartState = ChartState(width: real, height: real, offset: real, oldOffset: real,
                                   scrolling: bool, totalWidth: real)

  /** The viewport `[offset, offset + width]` lies inside the strip `[0, totalWidth]`. */
  predicate InBounds(offset: real, width: real, totalWidth: real)
  {
    0.0 <= offset && offset + width <= totalWidth
  }

  /**
   * The offset clamp used both while dragging and when centring: negative
   * candidates go to 0, and candidates that would show past the strip's
   * left end go to `totalWidth - width`. The negative test comes first, so
   * content narrower than the viewport yields a negative offset for every
   * non-negative candidate.
   */
  function Clamp(candidate: real, width: real, totalWidth: real): (r: real)
    ensures InBounds(candidate, width, totalWidth) ==> r == candidate
    ensures width <= totalWidth ==> InBounds(r, width, totalWidth)
    ensures width > totalWidth ==> r == (if candidate < 0.0 then 0.0 else totalWidth - width)
    ensures width > totalWidth && candidate >= 0.0 ==> r < 0.0
  {
    if candidate < 0.0 then 0.0
    else if candidate + width > totalWidth then totalWidth - width
    else candidate
  }

  /** When the viewport fits, the clamp is the nearest in-bounds offset to the candidate. */
  lemma ClampIsNearest(candidate: real, width: real, totalWidth: real, other: real)
    requires width <= totalWidth && InBounds(other, width, totalWidth)
    ensures Dist(Clamp(candidate, width, totalWidth), candidate) <= Dist(other, candidate)
  {
  }

  function Dist(a: real, b: real): real { if a < b then b - a else a - b }

  /** When the viewport fits, the clamp keeps the order of candidates. */
  lemma ClampMonotone(a: real, b: real, width: real, totalWidth: real)
    requires width <= totalWidth && a <= b
    ensures Clamp(a, width, totalWidth) <= Clamp(b, width, totalWidth)
  {
  }

  /** Narrow content breaks monotonicity: -1 clamps to 0, 0 clamps below it. */
  lemma NarrowClampNotMonotone()
    ensures Clamp(-1.0, 40.0, 20.0) == 0.0
    ensures Clamp(0.0, 40.0, 20.0) == -20.0
  {
  }

  /**
   * The offset a drag step commits: the movement is scaled from viewport
   * pixels to content pixels, subtracted (dragging right shows earlier
   * content) and clamped.
   */
  function ScrollOffset(offset: real, width: real, totalWidth: real, movementX: real): (r: real)
    requires width > 0.0
    ensures width <= totalWidth ==> InBounds(r, width, totalWidth)
    ensures width > totalWidth ==> r <= 0.0
  {
    Clamp(offset - (totalWidth / width) * movementX, width, totalWidth)
  }

  /** A drag step without movement leaves an in-bounds offset where it is. */
  lemma ScrollWithoutMovement(offset: real, width: real, totalWidth: real)
    requires width > 0.0 && InBounds(offset, width, totalWidth)
    ensures ScrollOffset(offset, width, totalWidth, 0.0) == offset
  {
  }

  /**
   * From any non-negative offset, moving right never increases the offset;
   * from an in-bounds offset, moving left never decreases it.
   */
  lemma ScrollDirection(offset: real, width: real, totalWidth: real, movementX: real)
    requires width > 0.0 && totalWidth >= 0.0 && 0.0 <= offset
    ensures movementX >= 0.0 ==> ScrollOffset(offset, width, totalWidth, movementX) <= offset
    ensures movementX <= 0.0 && InBounds(offset, width, totalWidth) ==>
            ScrollOffset(offset, width, totalWidth, movementX) >= offset
  {
    var additional := (totalWidth / width) * movementX;
    assert totalWidth / width >= 0.0;
    assert movementX >= 0.0 ==> additional >= 0.0;
    assert movementX <= 0.0 ==> additional <= 0.0;
    if movementX <= 0.0 && InBounds(offset, width, totalWidth) {
      ClampMonotone(offset, offset - additional, width, totalWidth);
    }
  }

  /**
   * With narrow content the direction reverses: a drag to the right lifts
   * the negative offset -20 (strip 20, viewport 40) up to 0.
   */
  lemma NarrowScrollRaisesOffset()
    ensures ScrollOffset(-20.0, 40.0, 20.0, 1.0) == 0.0
  {
  }

  /**
   * Dragging a full viewport width pans across the whole strip: from any
   * in-bounds offset it reaches the right end (offset 0) or the left end
   * (`totalWidth - width`).
   */
  lemma FullWidthDragReachesEnd(offset: real, width: real, totalWidth: real, movementX: real)
    requires width > 0.0 && InBounds(offset, width, totalWidth)
    ensures movementX >= width ==> ScrollOffset(offset, width, totalWidth, movementX) == 0.0
    ensures movementX <= -width ==> ScrollOffset(offset, width, totalWidth, movementX) == totalWidth - width
  {
    ScaledDragCoversStrip(totalWidth, width, movementX);
    var candidate := offset - (totalWidth / width) * movementX;
    assert movementX >= width ==> candidate < 0.0;
    assert movementX <= -width ==> candidate >= 0.0 && candidate + width > totalWidth;
  }

  /** A movement of at least one viewport width, scaled to content pixels, spans at least the whole strip. */
  lemma ScaledDragCoversStrip(totalWidth: real, width: real, movementX: real)
    requires width > 0.0 && totalWidth >= 0.0
    ensures movementX >= width ==> (totalWidth / width) * movementX >= totalWidth
    ensures movementX <= -width ==> (totalWidth / width) * movementX <= -totalWidth
  {
    var ratio := totalWidth / width;
    assert width * ratio == totalWidth;
    if movementX >= width {
      MulMonotone(width, movementX, ratio);
    }
    if movementX <= -width {
      var back := -width;
      MulMonotone(movementX, back, ratio);
      assert back * ratio == -totalWidth;
    }
  }

  /** A large drag to the right from offset 0 stops at 0 rather than going negative. */
  lemma DragClampsAtStart()
    ensures ScrollOffset(0.0, 40.0, 100.0, 1000.0) == 0.0
  {
  }

  /**
   * The unclamped offset that centres bar `index`: it places strip position
   * `(index - 1/2) * stride` under the viewport's midpoint.
   */
  function CenteringOffset(totalWidth: real, stride: real, width: real, index: int): (r: real)
    ensures ContentAtMidpoint(totalWidth, r, width) == BarStart(index, stride) - stride / 2.0
  {
    totalWidth - stride * index as real + (stride - width) / 2.0
  }

  /**
   * The content position under the viewport's midpoint at a given offset:
   * the midpoint is `width / 2` from the left, and the strip's left edge is
   * at `width + offset - totalWidth` (see `RenderBars`).
   */
  function ContentAtMidpoint(totalWidth: real, offset: real, width: real): (r: real)
    ensures InBounds(offset, width, totalWidth) ==> width / 2.0 <= r <= totalWidth - width / 2.0
    ensures offset == 0.0 ==> r + width / 2.0 == totalWidth
  {
    totalWidth - offset - width / 2.0
  }

  /**
   * After a drag step (`oldOffset == offset`) the position the scan starts
   * from is exactly the strip position drawn under the viewport's midpoint.
   */
  lemma MidpointUnderRenderedStrip(width: real, bars: seq<Bar>, barWidth: real, barSpace: real, offset: real)
    ensures var v := RenderBars(width, bars, barWidth, barSpace, offset, offset);
            width / 2.0 - v.left == ContentAtMidpoint(v.totalWidth, offset, width)
            && v.shift == 0.0
  {
  }

  /** 10 bars of stride 10 in a 40 pixel viewport: centring bar 5 gives offset 35. */
  lemma CenteringExample()
    ensures Clamp(CenteringOffset(TotalWidth(10, 8.0, 2.0), 10.0, 40.0, 5), 40.0, TotalWidth(10, 8.0, 2.0)) == 35.0
  {
  }

  /**
   * The `findIndex` scan from position `from`: the first bar at or after
   * `from` whose left edge is at or right of `center`, or -1.
   */
  function FindIndexFrom(count: nat, stride: real, center: real, from: nat): (r: int)
    requires from <= count
    ensures r == -1 || (from <= r < count && BarStart(r, stride) >= center)
    ensures forall j :: from <= j < (if r == -1 then count else r) ==> BarStart(j, stride) < center
    decreases count - from
  {
    if from == count then -1
    else if BarStart(from, stride) >= center then from
    else FindIndexFrom(count, stride, center, from + 1)
  }

  /**
   * The bar reported as centred after a drag step: one less than the first
   * bar whose left edge is at or past the content position under the
   * viewport midpoint, so -1 when bar 0 already is, and -2 when none is.
   */
  function CenteredBar(count: nat, stride: real, totalWidth: real, offset: real, width: real): (r: int)
    ensures -2 <= r <= count - 2
    ensures r == -2 <==> forall j :: 0 <= j < count ==> BarStart(j, stride) < ContentAtMidpoint(totalWidth, offset, width)
    ensures r >= -1 ==> BarStart(r + 1, stride) >= ContentAtMidpoint(totalWidth, offset, width)
    ensures r >= 0 ==> BarStart(r, stride) < ContentAtMidpoint(totalWidth, offset, width)
  {
    FindIndexFrom(count, stride, ContentAtMidpoint(totalWidth, offset, width), 0) - 1
  }

  /** 10 bars of stride 10, viewport 40, offset 35: the scan reports bar 4. */
  lemma CenteredBarExample()
    ensures CenteredBar(10, 10.0, 100.0, 35.0, 40.0) == 4
  {
    var r := CenteredBar(10, 10.0, 100.0, 35.0, 40.0);
    assert BarStart(5, 10.0) >= ContentAtMidpoint(100.0, 35.0, 40.0);
    assert r != -2;
    if r < 4 {
      MulMonotone((r + 1) as real, 4.0, 10.0);
      assert false;
    } else if r > 4 {
      MulMonotone(5.0, r as real, 10.0);
      assert false;
    }
  }

  /**
   * With a positive stride the scan is decided by one cell: when `center`
   * lies in `(BarStart(k - 1), BarStart(k)]` the scan finds bar `k`.
   */
  lemma {:induction false} FindIndexInCell(count: nat, stride: real, center: real, k: int)
    requires stride > 0.0 && 0 <= k < count
    requires BarStart(k - 1, stride) < center <= BarStart(k, stride)
    ensures FindIndexFrom(count, stride, center, 0) == k
  {
    var r := FindIndexFrom(count, stride, center, 0);
    if r == -1 {
      assert false;
    } else if r < k {
      BarStartMonotone(r, k - 1, stride);
      assert false;
    } else if r > k {
      assert false;
    }
  }

  /**
   * For a bar centred by the derived-state hook (no clamping involved), the
   * scan reports the bar one to its left: the two index computations
   * disagree by one.
   */
  lemma CenteringThenSearchIsOneLess(count: nat, stride: real, width: real, index: int)
    requires stride > 0.0 && 0 <= index < count
    requires InBounds(CenteringOffset(count as real * stride, stride, width, index), width, count as real * stride)
    ensures CenteredBar(count, stride, count as real * stride,
                        Clamp(CenteringOffset(count as real * stride, stride, width, index), width, count as real * stride),
                        width) == index - 1
  {
    var totalWidth := count as real * stride;
    var offset := CenteringOffset(totalWidth, stride, width, index);
    assert BarStart(index - 1, stride) == BarStart(index, stride) - stride;
    FindIndexInCell(count, stride, ContentAtMidpoint(totalWidth, offset, width), index);
  }

  /**
   * Whether `onBarSelect` is called after a drag step, and with what: only
   * when the option is on and the scanned index differs from the current
   * `centerBarIndex` (an undefined one always differs). -1 and -2 are passed
   * on like any other index.
   */
  function BarSelection(props: Props, totalWidth: real, offset: real, width: real): (r: Option<int>)
    ensures r.Some? <==> props.selectCenterBarOnScroll
                         && props.centerBarIndex != Some(CenteredBar(|props.bars|, props.Stride(), totalWidth, offset, width))
    ensures r.Some? ==> r.value == CenteredBar(|props.bars|, props.Stride(), totalWidth, offset, width)
                        && r != props.centerBarIndex
  {
    if props.selectCenterBarOnScroll then
      var index := CenteredBar(|props.bars|, props.Stride(), totalWidth, offset, width);
      if props.centerBarIndex != Some(index) then Some(index) else None
    else None
  }

  /** With no bars the scan finds nothing and the caller is notified with -2. */
  lemma SelectionWithoutBars(barWidth: real, barSpace: real, offset: real, width: real)
    ensures BarSelection(Props([], barWidth, barSpace, None, true), 0.0, offset, width) == Some(-2)
  {
  }

  /**
   * The derived-state hook: `totalWidth` is always recomputed from the
   * props; when a `centerBarIndex` is given and no drag is in progress the
   * offset moves to the clamped centring offset and `oldOffset` keeps the
   * offset it moved from; otherwise every other field is kept.
   */
  function DerivedState(props: Props, prev: ChartState): (s: ChartState)
    ensures s.totalWidth == TotalWidth(|props.bars|, props.barWidth, props.barSpace)
    ensures s.width == prev.width && s.height == prev.height && s.scrolling == prev.scrolling
    ensures props.centerBarIndex.None? || prev.scrolling ==> s == prev.(totalWidth := s.totalWidth)
    ensures props.centerBarIndex.Some? && !prev.scrolling ==>
              s.oldOffset == prev.offset
              && s.offset == Clamp(CenteringOffset(s.totalWidth, props.Stride(), prev.width, props.centerBarIndex.value),
                                   prev.width, s.totalWidth)
    ensures props.centerBarIndex.Some? && !prev.scrolling && prev.width <= s.totalWidth ==>
              InBounds(s.offset, s.width, s.totalWidth)
  {
    var totalWidth := TotalWidth(|props.bars|, props.barWidth, props.barSpace);
    if props.centerBarIndex.Some? && !prev.scrolling then
      var target := CenteringOffset(totalWidth, props.Stride(), prev.width, props.centerBarIndex.value);
      prev.(offset := Clamp(target, prev.width, totalWidth), oldOffset := prev.offset, totalWidth := totalWidth)
    else
      prev.(totalWidth := totalWidth)
  }

  /**
   * Running the hook twice with the same props gives the same offset; the
   * second run only moves `oldOffset` up to that offset, and a third run
   * changes nothing.
   */
  lemma DerivedStateSettles(props: Props, prev: ChartState)
    ensures var first := DerivedState(props, prev);
            var second := DerivedState(props, first);
            second.offset == first.offset
            && (props.centerBarIndex.Some? && !prev.scrolling ==> second.oldOffset == first.offset)
            && (props.centerBarIndex.None? || prev.scrolling ==> second == first)
            && DerivedState(props, second) == second
  {
  }

  /** While a drag is in progress the hook never moves the viewport. */
  lemma DerivedStateDuringDrag(props: Props, prev: ChartState)
    requires prev.scrolling
    ensures DerivedState(props, prev).offset == prev.offset
    ensures DerivedState(props, prev).oldOffset == prev.oldOffset
  {
  }

  /** The hook and the renderer compute the same strip width from the same props. */
  lemma RenderedWidthMatchesState(props: Props, prev: ChartState)
    ensures RenderBars(prev.width, props.Items(), props.barWidth, props.barSpace, prev.offset, prev.oldOffset).totalWidth
            == DerivedState(props, prev).totalWidth
  {
  }

  /** The mounted bar-chart component and its interactive state. */
  class BarChart {
    var width: real
    var height: real
    var offset: real
    var oldOffset: real
    var scrolling: bool
    var totalWidth: real

    /** The state record the fields make up. */
    function State(): ChartState
      reads this
    {
      ChartState(width, height, offset, oldOffset, scrolling, totalWidth)
    }

    /** The animation shift the renderer receives. */
    function Shift(): real
      reads this
    {
      AnimationShift(offset, oldOffset)
    }

    /**
     * The initial state: nothing scrolled, no drag. Width, height and
     * strip width are not known yet and start at 0.
     */
    constructor ()
      ensures offset == 0.0 && oldOffset == 0.0 && !scrolling
      ensures width == 0.0 && height == 0.0 && totalWidth == 0.0
    {
      width, height := 0.0, 0.0;
      offset, oldOffset := 0.0, 0.0;
      scrolling := false;
      totalWidth := 0.0;
    }

    /** A measurement of the container stores its size and nothing else. */
    method Resize(measuredWidth: real, measuredHeight: real)
      modifies this
      ensures width == measuredWidth && height == measuredHeight
      ensures offset == old(offset) && oldOffset == old(oldOffset)
      ensures scrolling == old(scrolling) && totalWidth == old(totalWidth)
    {
      width, height := measuredWidth, measuredHeight;
    }

    /** Drag start: mark the drag and freeze the animation baseline at the current offset. */
    method OnDragStart()
      modifies this
      ensures scrolling && oldOffset == old(offset) && offset == old(offset)
      ensures width == old(width) && height == old(height) && totalWidth == old(totalWidth)
      ensures Shift() == 0.0
    {
      scrolling := true;
      oldOffset := offset;
    }

    /** Drag end: clear the drag flag and keep the offset where the drag left it. */
    method OnDragEnd()
      modifies this
      ensures !scrolling
      ensures offset == old(offset) && oldOffset == old(oldOffset)
      ensures width == old(width) && height == old(height) && totalWidth == old(totalWidth)
    {
      scrolling := false;
    }

    /**
     * One drag step of `movementX` viewport pixels: commits the clamped
     * offset to both `offset` and `oldOffset` and returns the index passed
     * to `onBarSelect`, if it is called.
     */
    method OnScroll(props: Props, movementX: real) returns (selected: Option<int>)
      requires width > 0.0
      modifies this
      ensures width == old(width) && height == old(height)
      ensures offset == ScrollOffset(old(offset), width, totalWidth, movementX)
      ensures oldOffset == offset && Shift() == 0.0
      ensures scrolling == old(scrolling) && totalWidth == old(totalWidth)
      ensures width <= totalWidth ==> InBounds(offset, width, totalWidth)
      ensures selected == BarSelection(props, totalWidth, offset, width)
    {
      var additionalOffset := (totalWidth / width) * movementX;
      var newOffset := Clamp(offset - additionalOffset, width, totalWidth);
      offset, oldOffset := newOffset, newOffset;
      selected := None;
      if props.selectCenterBarOnScroll {
        var center := totalWidth - newOffset - width / 2.0;
        var newCenterBarIndex := FindIndexFrom(|props.bars|, props.Stride(), center, 0) - 1;
        if props.centerBarIndex != Some(newCenterBarIndex) {
          selected := Some(newCenterBarIndex);
        }
      }
    }

    /** The derived-state hook applied to the component, as happens before every render. */
    method Reconcile(props: Props)
      modifies this
      ensures State() == DerivedState(props, old(State()))
      ensures old(scrolling) ==> offset == old(offset) && oldOffset == old(oldOffset)
    {
      var next := DerivedState(props, State());
      width, height, offset := next.width, next.height, next.offset;
      oldOffset, scrolling, totalWidth := next.oldOffset, next.scrolling, next.totalWidth;
    }
  }

  /**
   * A drag that starts, does not move and is re-rendered with any props
   * leaves the viewport where it was, with no animation shift; in bounds it
   * stays in bounds.
   */
  method DragWithoutMovement(chart: BarChart, props: Props, nextProps: Props)
    requires chart.width > 0.0
    requires chart.totalWidth == TotalWidth(|props.bars|, props.barWidth, props.barSpace)
    modifies chart
    ensures chart.scrolling
    ensures chart.offset == chart.oldOffset && chart.Shift() == 0.0
    ensures InBounds(old(chart.offset), old(chart.width), old(chart.totalWidth)) ==> chart.offset == old(chart.offset)
  {
    chart.OnDragStart();
    chart.Reconcile(props);
    if InBounds(chart.offset, chart.width, chart.totalWidth) {
      ScrollWithoutMovement(chart.offset, chart.width, chart.totalWidth);
    }
    var ignored := chart.OnScroll(props, 0.0);
    chart.Reconcile(nextProps);
  }

  /**
   * Content that fits can still leave the viewport past the strip's end:
   * a resize stores only the new size, and the hook keeps the offset when no
   * bar is to be centred. With 10 bars of stride 10 and a 40 pixel viewport,
   * a drag of -24 reaches offset 60 (in bounds); widening the viewport to 50
   * and re-rendering leaves offset 60, and 60 + 50 > 100.
   */
  method ResizeLeavesOffsetOutOfBounds() returns (offset: real, width: real, totalWidth: real)
    ensures offset == 60.0 && width == 50.0 && totalWidth == 100.0
    ensures width <= totalWidth && !InBounds(offset, width, totalWidth)
  {
    var bars := seq(10, i => BarEntry("", []));
    var props := Props(bars, 8.0, 2.0, None, false);
    var chart := new BarChart();
    chart.Resize(40.0, 30.0);
    chart.Reconcile(props);
    var ignored := chart.OnScroll(props, -24.0);
    assert InBounds(chart.offset, chart.width, chart.totalWidth);
    chart.Resize(50.0, 30.0);
    chart.Reconcile(props);
    offset, width, totalWidth := chart.offset, chart.width, chart.totalWidth;
  }
}
