/** Wide-layout scrollytelling: the page scrolls through one tall
    container (`items.length * 150vh`) whose sticky panel shows one item
    at a time. The scroll handler maps how far the container's top has
    moved above the viewport to a discrete active-item index. */
module ScrollMapper {
  import opened Wrappers
  import opened Numbers

  /** What `getBoundingClientRect()` reports for the tall container. */
  datatype Rect = Rect(top: real, height: real)

  function Abs(x: real): real { if x < 0.0 then -x else x }

  /** The handler only writes the index while the container is partly
      scrolled past: its top is above the viewport but it has not left
      the viewport entirely, i.e. its top edge is above the viewport's
      top and its bottom edge below it. */
  predicate InUpdateRange(top: real, height: real)
    ensures InUpdateRange(top, height) <==> top < 0.0 && top + height > 0.0
  {
    top < 0.0 && Abs(top) < height
  }

  /** Scrolled distance over the container's scrollable height. It is
      not clamped: once the sticky panel has reached the container's
      bottom it exceeds 1. */
  function Progress(top: real, height: real, windowHeight: real): (p: real)
    requires windowHeight < height && top < 0.0
    ensures p > 0.0
    ensures p * (height - windowHeight) == Abs(top)
  {
    Abs(top) / (height - windowHeight)
  }

  /** `min(floor(progress * n), n - 1)`: the index is the slice of the
      scroll range that `progress` falls in, the last slice absorbing
      everything beyond the range. */
  function ActiveIndex(top: real, height: real, windowHeight: real, n: int): (r: int)
    requires n >= 1 && windowHeight < height && InUpdateRange(top, height)
    ensures 0 <= r < n
    ensures r as real <= Progress(top, height, windowHeight) * n as real
    ensures r < n - 1 ==> Progress(top, height, windowHeight) * n as real < (r + 1) as real
  {
    Min((Progress(top, height, windowHeight) * n as real).Floor, n - 1)
  }

  /** The scroll handler's effect on the active index, given the current
      index, the layout, the container's measurement (None when the
      container is not mounted), the window height and the item count. */
  function ScrollUpdate(current: int, isMobile: bool, rect: Option<Rect>, windowHeight: real, n: int): (r: int)
    requires n >= 1
    requires rect.Some? && InUpdateRange(rect.value.top, rect.value.height) ==> windowHeight < rect.value.height
    ensures 0 <= current < n ==> 0 <= r < n
    ensures (isMobile || rect.None? || !InUpdateRange(rect.value.top, rect.value.height)) ==> r == current
  {
    if isMobile || rect.None? then current
    else if InUpdateRange(rect.value.top, rect.value.height) then
      ActiveIndex(rect.value.top, rect.value.height, windowHeight, n)
    else current
  }

  /** Progress grows with the scrolled distance. */
  lemma ProgressMonotone(top1: real, top2: real, height: real, windowHeight: real)
    requires windowHeight < height && top2 <= top1 < 0.0
    ensures Progress(top1, height, windowHeight) <= Progress(top2, height, windowHeight)
  {
    ScaleBoth(Progress(top1, height, windowHeight), Progress(top2, height, windowHeight), height - windowHeight);
  }

  /** Scrolling further down never selects an earlier item: for a fixed
      container, window and item count, a larger `|top|` within the
      update range gives an index at least as large. */
  lemma ActiveIndexMonotone(top1: real, top2: real, height: real, windowHeight: real, n: int)
    requires n >= 1 && windowHeight < height
    requires InUpdateRange(top1, height) && InUpdateRange(top2, height)
    requires Abs(top1) <= Abs(top2)
    ensures ActiveIndex(top1, height, windowHeight, n) <= ActiveIndex(top2, height, windowHeight, n)
  {
    ProgressMonotone(top1, top2, height, windowHeight);
    var p1, p2 := Progress(top1, height, windowHeight), Progress(top2, height, windowHeight);
    ScaleBoth(p1, p2, n as real);
    var x1, x2 := p1 * n as real, p2 * n as real;
    assert x1.Floor <= x2.Floor;
    assert ActiveIndex(top1, height, windowHeight, n) == Min(x1.Floor, n - 1);
    assert ActiveIndex(top2, height, windowHeight, n) == Min(x2.Floor, n - 1);
  }

  /** The index is `k < n - 1` exactly when the scrolled distance lies in
      the k-th of `n` equal slices of the scrollable height; it is
      `n - 1` exactly when the distance is at least `n - 1` slices. */
  lemma ActiveIndexSlice(top: real, height: real, windowHeight: real, n: int, k: int)
    requires n >= 1 && windowHeight < height && InUpdateRange(top, height)
    requires 0 <= k < n
    ensures ActiveIndex(top, height, windowHeight, n) == k <==>
      (k as real) * (height - windowHeight) <= Abs(top) * n as real &&
      (k == n - 1 || Abs(top) * n as real < (k + 1) as real * (height - windowHeight))
  {
    var d := height - windowHeight;
    var p := Progress(top, height, windowHeight);
    var x := p * n as real;
    assert x >= 0.0 by { ScaleBoth(0.0, p, n as real); }
    assert ActiveIndex(top, height, windowHeight, n) == Min(x.Floor, n - 1);
    assert Abs(top) * n as real == x * d by {
      assert p * d == Abs(top);
    }
    ClampedFloorSlice(x, n, k);
    SliceScaled(Abs(top) * n as real, x, d, n, k, ActiveIndex(top, height, windowHeight, n));
  }

  /** Scaling the slice condition by the scrollable height. */
  lemma SliceScaled(a: real, x: real, d: real, n: int, k: int, r: int)
    requires d > 0.0 && a == x * d
    requires r == k <==> k as real <= x && (k == n - 1 || x < (k + 1) as real)
    ensures r == k <==> (k as real) * d <= a && (k == n - 1 || a < (k + 1) as real * d)
  {
    ScaleBoth(k as real, x, d);
    ScaleBoth(x, (k + 1) as real, d);
  }

  /** `min(floor(x), n - 1)` is `k` exactly when `x` lies in `[k, k + 1)`,
      or in `[n - 1, ∞)` for the last index. */
  lemma ClampedFloorSlice(x: real, n: int, k: int)
    requires 0 <= k < n && x >= 0.0
    ensures Min(x.Floor, n - 1) == k <==> k as real <= x && (k == n - 1 || x < (k + 1) as real)
  {
    if k as real <= x {
      assert x.Floor >= k;
      if x < (k + 1) as real {
        assert x.Floor <= k;
      }
    }
  }

  /** Multiplying both sides by a positive factor keeps the order. */
  lemma ScaleBoth(a: real, b: real, d: real)
    requires d > 0.0
    ensures a <= b <==> a * d <= b * d
    ensures a < b <==> a * d < b * d
  {
    if a <= b { assert (b - a) * d >= 0.0; }
    if a < b { assert (b - a) * d > 0.0; }
    if a * d <= b * d { assert (b - a) * d >= 0.0; }
    if a * d < b * d { assert (b - a) * d > 0.0; }
  }

  /** A three-item section 450 units tall in a 100-unit window (350 units
      of scrollable height): before the container reaches the top the
      index is kept, halfway it is the middle item, near the end and past
      the scrollable range it is the last item, and once the container
      has left the viewport the last computed index is kept. */
  lemma ThreeItemExample()
    ensures ScrollUpdate(0, false, Some(Rect(0.0, 450.0)), 100.0, 3) == 0
    ensures ScrollUpdate(0, false, Some(Rect(-175.0, 450.0)), 100.0, 3) == 1
    ensures ScrollUpdate(0, false, Some(Rect(-349.0, 450.0)), 100.0, 3) == 2
    ensures ScrollUpdate(0, false, Some(Rect(-400.0, 450.0)), 100.0, 3) == 2
    ensures ScrollUpdate(1, false, Some(Rect(-450.0, 450.0)), 100.0, 3) == 1
    ensures ScrollUpdate(2, true, Some(Rect(-175.0, 450.0)), 100.0, 3) == 2
  {
    assert Progress(-175.0, 450.0, 100.0) == 0.5;
    assert Progress(-349.0, 450.0, 100.0) * 3.0 == 1047.0 / 350.0;
    assert Progress(-400.0, 450.0, 100.0) * 3.0 == 1200.0 / 350.0;
  }
}
