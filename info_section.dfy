/** The section component. In the compact layout it renders one
    `MobileItem` per item; in the wide layout it renders one tall
    container whose sticky panel shows the active item's text and a
    single device frame holding every item's screenshots, with one
    carousel index per item, a shared drag-scroll gesture and a reset of
    the frame's scroll offset whenever what it shows changes. */
module InfoSectionView {
  import opened Wrappers
  import opened Content
  import opened Layout
  import opened ScrollMapper
  import Carousel
  import opened Numbers
  import DragScroll

  /** One carousel index per item, each a valid image index of its item. */
  predicate SlotsInBounds(indices: seq<int>, items: seq<Item>)
  {
    |indices| == |items| &&
    forall i :: 0 <= i < |items| ==> 0 <= indices[i] < |items[i].images|
  }

  /** `items.map(() => 0)`: every carousel on its first image. */
  function InitialSlots(items: seq<Item>): (r: seq<int>)
    ensures |r| == |items|
    ensures forall i :: 0 <= i < |r| ==> r[i] == 0
    ensures HasImages(items) ==> SlotsInBounds(r, items)
  {
    seq(|items|, _ => 0)
  }

  /** The "previous" arrow of the wide layout: a copy of the indices in
      which only the active item's slot has moved back, clamped at 0. */
  function PrevSlot(indices: seq<int>, items: seq<Item>, active: int): (r: seq<int>)
    requires SlotsInBounds(indices, items) && 0 <= active < |items|
    ensures SlotsInBounds(r, items)
    ensures r[active] == Carousel.Prev(indices[active])
    ensures forall j :: 0 <= j < |r| && j != active ==> r[j] == indices[j]
  {
    indices[active := Max(0, indices[active] - 1)]
  }

  /** The "next" arrow of the wide layout: a copy of the indices in which
      only the active item's slot has moved forward, clamped at the
      active item's last image. */
  function NextSlot(indices: seq<int>, items: seq<Item>, active: int): (r: seq<int>)
    requires SlotsInBounds(indices, items) && 0 <= active < |items|
    ensures SlotsInBounds(r, items)
    ensures r[active] == Carousel.Next(indices[active], |items[active].images|)
    ensures forall j :: 0 <= j < |r| && j != active ==> r[j] == indices[j]
  {
    var maxIdx := |items[active].images| - 1;
    indices[active := Min(maxIdx, indices[active] + 1)]
  }

  /** The wide arrows leave every index as it was exactly when the
      pressed arrow is disabled for the active item. */
  lemma SlotNoOpIffDisabled(indices: seq<int>, items: seq<Item>, active: int)
    requires SlotsInBounds(indices, items) && 0 <= active < |items|
    ensures PrevSlot(indices, items, active) == indices <==> Carousel.PrevDisabled(indices[active])
    ensures NextSlot(indices, items, active) == indices <==>
      Carousel.NextDisabled(indices[active], |items[active].images|)
  {
    var p, q := PrevSlot(indices, items, active), NextSlot(indices, items, active);
    if p == indices { assert p[active] == indices[active]; }
    if Carousel.PrevDisabled(indices[active]) {
      assert forall j :: 0 <= j < |p| ==> p[j] == indices[j];
    }
    if q == indices { assert q[active] == indices[active]; }
    if Carousel.NextDisabled(indices[active], |items[active].images|) {
      assert forall j :: 0 <= j < |q| ==> q[j] == indices[j];
    }
  }

  class InfoSection {
    const items: seq<Item>
    /** The frame element registered for the active item
        (`scrollContainerRefs.current[activeItemIndex]`), null while it is
        not mounted. */
    var viewport: ScrollFrame?
    var activeItemIndex: int
    var subImageIndices: seq<int>
    var isMobile: bool
    var isDragging: bool
    /** Pointer position relative to the frame when the gesture started. */
    var startY: real
    /** The frame's scroll offset when the gesture started. */
    var scrollTop: real

    /** A section has at least one item, every item a screenshot, the
        active index names an item and every carousel index an image of
        its item. */
    ghost predicate Valid()
      reads this
    {
      |items| >= 1 && HasImages(items) &&
      0 <= activeItemIndex < |items| &&
      SlotsInBounds(subImageIndices, items)
    }

    /** Mounting: the initial state of the hooks (first item active,
        every carousel on its first image, wide layout, no gesture),
        then the reset effect's first run after the first commit, which
        still sees the wide layout and so scrolls a mounted frame to its
        top whatever the window width. */
    constructor (items: seq<Item>, frame: ScrollFrame?)
      requires |items| >= 1 && HasImages(items)
      modifies frame
      ensures Valid()
      ensures frame != null ==> frame.scrollTop == 0.0 && frame.offsetTop == old(frame.offsetTop)
      ensures this.items == items && viewport == frame
      ensures activeItemIndex == 0 && subImageIndices == InitialSlots(items)
      ensures !isMobile && !isDragging && startY == 0.0 && scrollTop == 0.0
    {
      this.items := items;
      viewport := frame;
      activeItemIndex := 0;
      subImageIndices := InitialSlots(items);
      isMobile := false;
      isDragging := false;
      startY := 0.0;
      scrollTop := 0.0;
      new;
      ResetInnerScroll();
    }

    /** The active item's carousel index (`subImageIndices[activeItemIndex]`). */
    function CurrentSubImageIndex(): (r: int)
      reads this
      requires Valid()
      ensures 0 <= r < |items[activeItemIndex].images|
    {
      subImageIndices[activeItemIndex]
    }

    /** The wide counter "`current + 1` / `images.length`" of the active
        item; "previous" is disabled when it shows 1 and "next" when it
        shows the total. */
    function Counter(): (r: (int, int))
      reads this
      requires Valid()
      ensures 1 <= r.0 <= r.1 == |items[activeItemIndex].images|
      ensures r.0 == 1 <==> Carousel.PrevDisabled(CurrentSubImageIndex())
      ensures r.0 == r.1 <==> Carousel.NextDisabled(CurrentSubImageIndex(), |items[activeItemIndex].images|)
    {
      Carousel.Position(CurrentSubImageIndex(), |items[activeItemIndex].images|)
    }

    /** The effect that runs after a render in which the active index,
        the carousel array or the layout changed: in the wide layout,
        scroll the active frame back to its top. */
    method ResetInnerScroll()
      modifies viewport
      ensures viewport != null && !isMobile ==> viewport.scrollTop == 0.0
      ensures viewport != null && isMobile ==> viewport.scrollTop == old(viewport.scrollTop)
      ensures viewport != null ==> viewport.offsetTop == old(viewport.offsetTop)
    {
      if isMobile {
        return;
      }
      var currentContainer := viewport;
      if currentContainer != null {
        currentContainer.scrollTop := 0.0;
      }
    }

    /** The resize listener (also run on mount): choose the layout from
        the window width; a change of layout re-runs the reset effect. */
    method CheckMobile(innerWidth: int)
      requires Valid()
      modifies this`isMobile, viewport
      ensures Valid()
      ensures isMobile <==> innerWidth < MobileBreakpoint
      ensures viewport != null && isMobile != old(isMobile) && !isMobile ==> viewport.scrollTop == 0.0
      ensures viewport != null && (isMobile == old(isMobile) || isMobile) ==> viewport.scrollTop == old(viewport.scrollTop)
      ensures viewport != null ==> viewport.offsetTop == old(viewport.offsetTop)
    {
      var mobile := IsMobile(innerWidth);
      if mobile != isMobile {
        isMobile := mobile;
        ResetInnerScroll();
      }
    }

    /** The window scroll listener, given the tall container's measured
        rectangle (None while it is not mounted) and the window height.
        The index is written only in the wide layout and while the
        container is partly scrolled past; writing a different index
        re-runs the reset effect. */
    method HandleScroll(rect: Option<Rect>, windowHeight: real)
      requires Valid()
      requires rect.Some? && InUpdateRange(rect.value.top, rect.value.height) ==> windowHeight < rect.value.height
      modifies this`activeItemIndex, viewport
      ensures Valid()
      ensures activeItemIndex == ScrollUpdate(old(activeItemIndex), isMobile, rect, windowHeight, |items|)
      ensures viewport != null && activeItemIndex != old(activeItemIndex) ==> viewport.scrollTop == 0.0
      ensures viewport != null && activeItemIndex == old(activeItemIndex) ==> viewport.scrollTop == old(viewport.scrollTop)
      ensures viewport != null ==> viewport.offsetTop == old(viewport.offsetTop)
    {
      if isMobile || rect.None? {
        return;
      }
      var top, height := rect.value.top, rect.value.height;
      if top < 0.0 && Abs(top) < height {
        var totalScrollableHeight := height - windowHeight;
        var progress := Abs(top) / totalScrollableHeight;
        var index := Min((progress * |items| as real).Floor, |items| - 1);
        if index != activeItemIndex {
          activeItemIndex := index;
          ResetInnerScroll();
        }
      }
    }

    /** The wide "previous" arrow. The new array always differs from the
        old one by identity, so the reset effect always re-runs. */
    method HandlePrevSubImage()
      requires Valid()
      modifies this`subImageIndices, viewport
      ensures Valid()
      ensures subImageIndices == PrevSlot(old(subImageIndices), items, activeItemIndex)
      ensures viewport != null && !isMobile ==> viewport.scrollTop == 0.0
      ensures viewport != null && isMobile ==> viewport.scrollTop == old(viewport.scrollTop)
      ensures viewport != null ==> viewport.offsetTop == old(viewport.offsetTop)
    {
      var next := subImageIndices;
      next := next[activeItemIndex := Max(0, next[activeItemIndex] - 1)];
      subImageIndices := next;
      ResetInnerScroll();
    }

    /** The wide "next" arrow; like "previous", it always re-runs the
        reset effect. */
    method HandleNextSubImage()
      requires Valid()
      modifies this`subImageIndices, viewport
      ensures Valid()
      ensures subImageIndices == NextSlot(old(subImageIndices), items, activeItemIndex)
      ensures viewport != null && !isMobile ==> viewport.scrollTop == 0.0
      ensures viewport != null && isMobile ==> viewport.scrollTop == old(viewport.scrollTop)
      ensures viewport != null ==> viewport.offsetTop == old(viewport.offsetTop)
    {
      var next := subImageIndices;
      var maxIdx := |items[activeItemIndex].images| - 1;
      next := next[activeItemIndex := Min(maxIdx, next[activeItemIndex] + 1)];
      subImageIndices := next;
      ResetInnerScroll();
    }

    /** Mouse-down on the frame: in the wide layout and with the frame
        mounted, start a gesture and save the pointer position relative
        to the frame and the frame's scroll offset. */
    method OnMouseDown(pageY: real)
      modifies this`isDragging, this`startY, this`scrollTop
      ensures isMobile || viewport == null ==>
        isDragging == old(isDragging) && startY == old(startY) && scrollTop == old(scrollTop)
      ensures !isMobile && viewport != null ==>
        isDragging && startY == DragScroll.PointerY(pageY, viewport.offsetTop) && scrollTop == viewport.scrollTop
    {
      if isMobile {
        return;
      }
      var container := viewport;
      if container == null {
        return;
      }
      isDragging := true;
      startY := pageY - container.offsetTop;
      scrollTop := container.scrollTop;
    }

    /** Mouse-move on the frame: only in the wide layout, during a
        gesture and with the frame mounted, set the frame's offset from
        the saved one by the amplified drag distance. */
    method OnMouseMove(pageY: real)
      modifies viewport
      ensures viewport != null && (isMobile || !isDragging) ==> viewport.scrollTop == old(viewport.scrollTop)
      ensures viewport != null && !isMobile && isDragging ==>
        viewport.scrollTop == DragScroll.DragOffset(scrollTop, startY, DragScroll.PointerY(pageY, viewport.offsetTop))
      ensures viewport != null ==> viewport.offsetTop == old(viewport.offsetTop)
    {
      if isMobile || !isDragging {
        return;
      }
      var container := viewport;
      if container == null {
        return;
      }
      var y := pageY - container.offsetTop;
      var walk := (y - startY) * 1.5;
      container.scrollTop := scrollTop - walk;
    }

    /** Mouse-up or mouse-leave on the frame. */
    method StopDragging()
      modifies this`isDragging
      ensures !isDragging
    {
      isDragging := false;
    }
  }

  /** Three items with 2, 3 and 1 screenshots in a wide window: scrolling
      to 66% of the scrollable range selects the second item, whose
      carousel starts at 1/3; "next" twice shows 3/3 and disables "next".
      The returned counters are those after each step. */
  method ThreeItemScenario() returns (first: (int, int), afterOne: (int, int), afterTwo: (int, int), nextDisabled: bool)
    ensures first == (1, 3) && afterOne == (2, 3) && afterTwo == (3, 3) && nextDisabled
  {
    var items := [
      Item("uxui", "", None, ["a", "b"]),
      Item("folder", "", None, ["c", "d", "e"]),
      Item("smart", "", None, ["f"])];
    var frame := new ScrollFrame(0.0, 120.0);
    var s := new InfoSection(items, frame);
    s.CheckMobile(1280);
    // a 450-unit container in a 100-unit window: 350 units scrollable
    s.HandleScroll(Some(Rect(-231.0, 450.0)), 100.0);
    assert Progress(-231.0, 450.0, 100.0) * 3.0 == 1.98;
    first := s.Counter();
    s.HandleNextSubImage();
    afterOne := s.Counter();
    s.HandleNextSubImage();
    afterTwo := s.Counter();
    nextDisabled := Carousel.NextDisabled(s.CurrentSubImageIndex(), |s.items[s.activeItemIndex].images|);
  }
}
