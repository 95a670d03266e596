/** The scrolling camera of `MyGame.update`: four one-directional margin checks
    that drag the viewport after the player, followed (in the caller) by
    truncation of both offsets to whole pixels. */
module Camera {
  import opened Numeric

  const ScreenWidth: real := 1000.0
  const ScreenHeight: real := 650.0
  const LeftMargin: real := 150.0
  const RightMargin: real := 150.0
  const BottomMargin: real := 50.0
  const TopMargin: real := 100.0

  /** Widest and tallest box the margin band can hold. */
  const BandWidth: real := ScreenWidth - LeftMargin - RightMargin
  const BandHeight: real := ScreenHeight - TopMargin - BottomMargin

  /** A sprite's bounding box in world pixels. */
  datatype Box = Box(left: real, right: real, bottom: real, top: real)

  /** The camera offsets `view_left` and `view_bottom`. */
  datatype Viewport = Viewport(left: real, bottom: real)

  datatype Scrolled = Scrolled(view: Viewport, changed: bool)

  /** The player's box lies inside the margin band of the viewport. */
  predicate InBand(v: Viewport, b: Box) {
    v.left + LeftMargin <= b.left && b.right <= v.left + ScreenWidth - RightMargin &&
    v.bottom + BottomMargin <= b.bottom && b.top <= v.bottom + ScreenHeight - TopMargin
  }

  /** A box small enough for the band. */
  predicate Fits(b: Box) {
    b.left <= b.right <= b.left + BandWidth && b.bottom <= b.top <= b.bottom + BandHeight
  }

  /** The scroll step before truncation: left, then right against the possibly
      moved left offset, then up, then down against the possibly moved bottom
      offset. `changed` records whether any of the four checks fired. */
  function Scroll(v: Viewport, b: Box): (r: Scrolled)
    // Scroll left: the left margin now touches the box's left edge.
    ensures b.left < v.left + LeftMargin && b.right - b.left <= BandWidth ==>
      r.view.left == b.left - LeftMargin
    // Scroll right: the offset grows by exactly the positive overshoot.
    ensures v.left + LeftMargin <= b.left && v.left + ScreenWidth - RightMargin < b.right ==>
      r.view.left - v.left == b.right - (v.left + ScreenWidth - RightMargin) && r.view.left > v.left
    // Scroll up: the offset grows by exactly the positive overshoot.
    ensures v.bottom + ScreenHeight - TopMargin < b.top && b.top - b.bottom <= BandHeight ==>
      r.view.bottom - v.bottom == b.top - (v.bottom + ScreenHeight - TopMargin) && r.view.bottom > v.bottom
    // Scroll down: the bottom margin now touches the box's bottom edge.
    ensures b.top <= v.bottom + ScreenHeight - TopMargin && b.bottom < v.bottom + BottomMargin ==>
      r.view.bottom == b.bottom - BottomMargin
    // Inside the band nothing moves, and nothing moves unless a check fired.
    ensures InBand(v, b) ==> r == Scrolled(v, false)
    ensures !r.changed ==> r.view == v
    // A box that fits ends inside the band, and a check fires exactly when it was outside.
    ensures Fits(b) ==> InBand(r.view, b) && (r.changed <==> !InBand(v, b))
  {
    var h := ScrollLeftRight(v.left, b);
    var u := ScrollUpDown(v.bottom, b);
    Scrolled(Viewport(h.offset, u.offset), h.changed || u.changed)
  }

  /** A new offset on one axis, and whether a check fired. */
  datatype Pan = Pan(offset: real, changed: bool)

  /** Scroll left, then right against the possibly moved left offset. */
  function ScrollLeftRight(left: real, b: Box): Pan {
    var leftBoundary := left + LeftMargin;
    var l1 := if b.left < leftBoundary then left - (leftBoundary - b.left) else left;
    var rightBoundary := l1 + ScreenWidth - RightMargin;
    var l2 := if b.right > rightBoundary then l1 + (b.right - rightBoundary) else l1;
    Pan(l2, b.left < leftBoundary || b.right > rightBoundary)
  }

  /** Scroll up, then down against the possibly moved bottom offset. */
  function ScrollUpDown(bottom: real, b: Box): Pan {
    var topBoundary := bottom + ScreenHeight - TopMargin;
    var b1 := if b.top > topBoundary then bottom + (b.top - topBoundary) else bottom;
    var bottomBoundary := b1 + BottomMargin;
    var b2 := if b.bottom < bottomBoundary then b1 - (bottomBoundary - b.bottom) else b1;
    Pan(b2, b.top > topBoundary || b.bottom < bottomBoundary)
  }

  /** `int()` applied to both offsets. */
  function Truncate(v: Viewport): (r: Viewport)
    ensures Integral(r.left) && Integral(r.bottom)
    ensures 0.0 <= v.left ==> r.left <= v.left < r.left + 1.0
    ensures v.left < 0.0 ==> r.left - 1.0 < v.left <= r.left
    ensures 0.0 <= v.bottom ==> r.bottom <= v.bottom < r.bottom + 1.0
    ensures v.bottom < 0.0 ==> r.bottom - 1.0 < v.bottom <= r.bottom
    ensures Integral(v.left) && Integral(v.bottom) ==> r == v
  {
    Viewport(TruncToZero(v.left) as real, TruncToZero(v.bottom) as real)
  }

  /** After truncation a fitting box is still inside the band up to one pixel
      on every side. */
  lemma BandWithinOnePixel(v: Viewport, b: Box)
    requires Fits(b)
    ensures var t := Truncate(Scroll(v, b).view);
      t.left + LeftMargin - 1.0 < b.left && b.right < t.left + ScreenWidth - RightMargin + 1.0 &&
      t.bottom + BottomMargin - 1.0 < b.bottom && b.top < t.bottom + ScreenHeight - TopMargin + 1.0
  {
    var r := Scroll(v, b).view;
    assert InBand(r, b);
  }

  /** Truncation can leave a fitting box outside the band: scrolling right by
      half a pixel from the origin is undone by `int()`. */
  lemma TruncationCanLeaveBand()
    ensures exists v: Viewport, b: Box ::
              Fits(b) && InBand(Scroll(v, b).view, b) && !InBand(Truncate(Scroll(v, b).view), b)
  {
    var v := Viewport(0.0, 0.0);
    var b := Box(200.0, 850.5, 100.0, 200.0);
    assert Scroll(v, b).view == Viewport(0.5, 0.0);
    assert Truncate(Viewport(0.5, 0.0)) == Viewport(0.0, 0.0);
  }
}
