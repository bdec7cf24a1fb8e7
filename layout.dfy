/**
 * Layout arithmetic of the bar renderer (src/components/bar-chart/bars.js).
 *
 * The renderer is a pure function of its props: it folds the segment values
 * of every bar into a stacked height, takes the largest of those heights as
 * the vertical scale, computes the width of the whole content strip and the
 * absolute `left` position that right-anchors the strip in the viewport.
 * Pixel quantities are exact reals.
 */
module Layout {

  /** One stacked segment of a bar; only its value matters to the layout. */
  datatype Segment = Segment(value: real)

  /** A bar as the renderer receives it: its stacked segments. */
  type Bar = seq<Segment>

  /**
   * The inner `reduce`: the segment values added up left to right from 0.
   * An empty bar has height 0, and non-negative segments never stack below 0.
   */
  function StackedHeight(bar: Bar): (r: real)
    ensures |bar| == 0 ==> r == 0.0
    ensures (forall k :: 0 <= k < |bar| ==> bar[k].value >= 0.0) ==> r >= 0.0
  {
    if |bar| == 0 then 0.0 else StackedHeight(bar[..|bar| - 1]) + bar[|bar| - 1].value
  }

  /** Stacking is additive: the height of two runs of segments is the sum of their heights. */
  lemma {:induction false} StackedHeightAppend(a: Bar, b: Bar)
    ensures StackedHeight(a + b) == StackedHeight(a) + StackedHeight(b)
  {
    if |b| == 0 {
      assert a + b == a;
    } else {
      var front := b[..|b| - 1];
      assert (a + b)[..|a + b| - 1] == a + front;
      StackedHeightAppend(a, front);
    }
  }

  /** A single segment stands as high as its value; with additivity this pins the fold down to a sum. */
  lemma StackedHeightSingle(s: Segment)
    ensures StackedHeight([s]) == s.value
  {
    assert [s][..0] == [];
  }

  /** A bar of non-negative segments is at least as high as any one of its segments. */
  lemma {:induction false} StackedHeightBounds(bar: Bar)
    requires forall k :: 0 <= k < |bar| ==> bar[k].value >= 0.0
    ensures forall k :: 0 <= k < |bar| ==> bar[k].value <= StackedHeight(bar)
  {
    if |bar| > 0 {
      StackedHeightBounds(bar[..|bar| - 1]);
      assert forall k :: 0 <= k < |bar| - 1 ==> bar[k] == bar[..|bar| - 1][k];
    }
  }

  /**
   * The outer `reduce`: the largest stacked height, starting from 0, so it is
   * never below 0 and is either 0 or the height of some bar.
   */
  function Highest(bars: seq<Bar>): (r: real)
    ensures r >= 0.0
    ensures forall i :: 0 <= i < |bars| ==> StackedHeight(bars[i]) <= r
    ensures r == 0.0 || exists i :: 0 <= i < |bars| && StackedHeight(bars[i]) == r
  {
    if |bars| == 0 then 0.0
    else
      var acc := Highest(bars[..|bars| - 1]);
      var height := StackedHeight(bars[|bars| - 1]);
      assert forall i :: 0 <= i < |bars| - 1 ==> bars[..|bars| - 1][i] == bars[i];
      if height > acc then height else acc
  }

  /** When some bar stands above 0, the scale is exactly the tallest bar. */
  lemma HighestIsTallestBar(bars: seq<Bar>, j: int)
    requires 0 <= j < |bars| && StackedHeight(bars[j]) > 0.0
    ensures exists i :: 0 <= i < |bars| && Highest(bars) == StackedHeight(bars[i])
  {
  }

  /**
   * Width of the content strip: one stride (bar plus gap) per bar. No bars
   * give an empty strip, and a non-negative stride never a negative one.
   */
  function TotalWidth(count: nat, barWidth: real, barSpace: real): (r: real)
    ensures count == 0 ==> r == 0.0
    ensures barWidth + barSpace >= 0.0 ==> r >= 0.0
  {
    var stride := barWidth + barSpace;
    var r := count as real * stride;
    assert stride >= 0.0 ==> r >= 0.0 by {
      if stride >= 0.0 {
        MulMonotone(0.0, count as real, stride);
        assert 0.0 * stride == 0.0;
      }
    }
    r
  }

  /** Left edge of bar `index` inside the content strip: bar 0 starts at the strip's left edge. */
  function BarStart(index: int, stride: real): (r: real)
    ensures index == 0 ==> r == 0.0
    ensures index >= 0 && stride >= 0.0 ==> r >= 0.0
  {
    index as real * stride
  }

  /** With a non-negative stride, bars further right start further right. */
  lemma BarStartMonotone(i: int, j: int, stride: real)
    requires i <= j && stride >= 0.0
    ensures BarStart(i, stride) <= BarStart(j, stride)
  {
    MulMonotone(i as real, j as real, stride);
  }

  /** Each further bar widens the strip by exactly one stride. */
  lemma TotalWidthAddBar(count: nat, barWidth: real, barSpace: real)
    ensures TotalWidth(count + 1, barWidth, barSpace) == TotalWidth(count, barWidth, barSpace) + (barWidth + barSpace)
  {
  }

  /** With a non-negative stride every bar's cell lies inside the strip. */
  lemma {:induction false} TotalWidthCoversBars(count: nat, barWidth: real, barSpace: real, index: int)
    requires barWidth + barSpace >= 0.0 && 0 <= index < count
    ensures 0.0 <= BarStart(index, barWidth + barSpace)
    ensures BarStart(index, barWidth + barSpace) + (barWidth + barSpace) <= TotalWidth(count, barWidth, barSpace)
  {
    var stride := barWidth + barSpace;
    assert (index + 1) as real <= count as real;
    assert BarStart(index, stride) + stride == (index + 1) as real * stride;
    MulMonotone((index + 1) as real, count as real, stride);
  }

  /** Multiplying by a non-negative factor keeps order. */
  lemma MulMonotone(a: real, b: real, c: real)
    requires a <= b && c >= 0.0
    ensures a * c <= b * c
  {
    assert b * c - a * c == (b - a) * c;
  }

  /**
   * The shift the strip animates over: from where it was drawn (`oldOffset`)
   * to `offset`. It is 0 exactly when the two agree.
   */
  function AnimationShift(offset: real, oldOffset: real): (r: real)
    ensures oldOffset + r == offset
    ensures r == 0.0 <==> offset == oldOffset
  {
    offset - oldOffset
  }

  /** What the renderer hands to the drawn strip. */
  datatype BarsView = BarsView(highest: real, totalWidth: real, left: real, shift: real)

  /**
   * The default export of bars.js: vertical scale, strip width, the absolute
   * `left` of the strip and the animation shift `offset - oldOffset`.
   * The strip's right edge sits `oldOffset` to the right of the viewport's
   * right edge: the content is right-anchored.
   */
  function RenderBars(width: real, bars: seq<Bar>, barWidth: real, barSpace: real,
                      offset: real, oldOffset: real): (v: BarsView)
    ensures v.totalWidth == TotalWidth(|bars|, barWidth, barSpace)
    ensures v.left + v.totalWidth == width + oldOffset
    ensures v.highest == Highest(bars)
    ensures oldOffset + v.shift == offset
  {
    var totalWidth := TotalWidth(|bars|, barWidth, barSpace);
    BarsView(Highest(bars), totalWidth, width + oldOffset - totalWidth, AnimationShift(offset, oldOffset))
  }

  /**
   * With `oldOffset` inside [0, totalWidth - width] the strip covers the
   * whole viewport: its left edge is at or before 0 and its right edge at
   * or after `width`. At offset 0 the right edges coincide.
   */
  lemma StripCoversViewport(width: real, bars: seq<Bar>, barWidth: real, barSpace: real,
                            offset: real, oldOffset: real)
    requires 0.0 <= oldOffset && oldOffset + width <= TotalWidth(|bars|, barWidth, barSpace)
    ensures RenderBars(width, bars, barWidth, barSpace, offset, oldOffset).left <= 0.0
    ensures var v := RenderBars(width, bars, barWidth, barSpace, offset, oldOffset);
            v.left + v.totalWidth >= width
    ensures oldOffset == 0.0 ==>
            var v := RenderBars(width, bars, barWidth, barSpace, offset, oldOffset);
            v.left + v.totalWidth == width
  {
  }
}
