/** The compact layout renders every item of a section as its own
    `MobileItem`: the item's text, a device frame that can be
    drag-scrolled with mouse or touch, and a carousel of the item's
    screenshots below it. */
module MobileItemView {
  import opened Content
  import opened Layout
  import Carousel
  import opened Numbers
  import DragScroll

  class MobileItem {
    const item: Item
    /** `scrollRef.current`: the frame's scrollable element, null while unmounted. */
    var scrollRef: ScrollFrame?
    /** The carousel's current image index. */
    var subIdx: int
    var isDragging: bool
    /** Pointer position relative to the frame when the gesture started. */
    var startY: real
    /** The frame's scroll offset when the gesture started. */
    var scrollTop: real
    /** The arrow presses since the item was mounted. */
    ghost var presses: seq<Carousel.Nav>

    /** The carousel index is what the presses so far lead to from the
        first image, hence always a valid image index. */
    ghost predicate Valid()
      reads this
    {
      |item.images| >= 1 &&
      0 <= subIdx < |item.images| &&
      subIdx == Carousel.Run(0, |item.images|, presses)
    }

    /** Mounting: the carousel on the first image, no gesture. */
    constructor (item: Item, frame: ScrollFrame?)
      requires |item.images| >= 1
      ensures Valid()
      ensures this.item == item && scrollRef == frame && presses == []
      ensures subIdx == 0 && !isDragging && startY == 0.0 && scrollTop == 0.0
    {
      this.item := item;
      scrollRef := frame;
      subIdx := 0;
      isDragging := false;
      startY := 0.0;
      scrollTop := 0.0;
      presses := [];
    }

    /** The counter "`subIdx + 1` / `images.length`". */
    function Counter(): (r: (int, int))
      reads this
      requires Valid()
      ensures 1 <= r.0 <= r.1 == |item.images|
      ensures r.0 == 1 <==> Carousel.PrevDisabled(subIdx)
      ensures r.0 == r.1 <==> Carousel.NextDisabled(subIdx, |item.images|)
    {
      Carousel.Position(subIdx, |item.images|)
    }

    /** The "previous" arrow. */
    method ShowPrev()
      requires Valid()
      modifies this`subIdx, this`presses
      ensures Valid()
      ensures subIdx == Carousel.Prev(old(subIdx))
      ensures presses == old(presses) + [Carousel.Back]
    {
      Carousel.RunAppend(0, |item.images|, presses, [Carousel.Back]);
      subIdx := Max(0, subIdx - 1);
      presses := presses + [Carousel.Back];
    }

    /** The "next" arrow. */
    method ShowNext()
      requires Valid()
      modifies this`subIdx, this`presses
      ensures Valid()
      ensures subIdx == Carousel.Next(old(subIdx), |item.images|)
      ensures presses == old(presses) + [Carousel.Forward]
    {
      Carousel.RunAppend(0, |item.images|, presses, [Carousel.Forward]);
      subIdx := Min(|item.images| - 1, subIdx + 1);
      presses := presses + [Carousel.Forward];
    }

    /** Mouse-down or touch-start at page coordinate `pageY` (the first
        touch's for a touch event): with the frame mounted, start a
        gesture and save the pointer position relative to the frame and
        the frame's current scroll offset. */
    method HandleDragStart(pageY: real)
      modifies this`isDragging, this`startY, this`scrollTop
      ensures scrollRef == null ==> isDragging == old(isDragging) && startY == old(startY) && scrollTop == old(scrollTop)
      ensures scrollRef != null ==>
        isDragging && startY == DragScroll.PointerY(pageY, scrollRef.offsetTop) && scrollTop == scrollRef.scrollTop
    {
      var container := scrollRef;
      if container == null {
        return;
      }
      isDragging := true;
      startY := pageY - container.offsetTop;
      scrollTop := container.scrollTop;
    }

    /** Mouse-move or touch-move: only during a gesture, and with the
        frame mounted, set the frame's offset from the saved one by the
        amplified drag distance. Nothing else changes. */
    method HandleDragMove(pageY: real)
      modifies scrollRef
      ensures scrollRef != null && !isDragging ==> scrollRef.scrollTop == old(scrollRef.scrollTop)
      ensures scrollRef != null && isDragging ==>
        scrollRef.scrollTop == DragScroll.DragOffset(scrollTop, startY, DragScroll.PointerY(pageY, scrollRef.offsetTop))
      ensures scrollRef != null ==> scrollRef.offsetTop == old(scrollRef.offsetTop)
    {
      if !isDragging {
        return;
      }
      var container := scrollRef;
      if container == null {
        return;
      }
      var y := pageY - container.offsetTop;
      var walk := (y - startY) * 1.5;
      container.scrollTop := scrollTop - walk;
    }

    /** Mouse-up, mouse-leave or touch-end. */
    method StopDragging()
      modifies this`isDragging
      ensures !isDragging
    {
      isDragging := false;
    }
  }

  /** A whole gesture on a mounted frame that stays in place: after a
      start at `p0` and a move to `p1` the frame's offset is the offset
      it had at the start minus 1.5 times the distance dragged; after
      the release a further move changes nothing. */
  method DragGesture(m: MobileItem, p0: real, p1: real, p2: real)
    requires m.scrollRef != null
    modifies m, m.scrollRef
    ensures m.scrollRef == old(m.scrollRef) && !m.isDragging
    ensures m.scrollRef.scrollTop == old(m.scrollRef.scrollTop) - 1.5 * (p1 - p0)
  {
    var frame := m.scrollRef;
    m.HandleDragStart(p0);
    m.HandleDragMove(p1);
    DragScroll.DragInPageCoordinates(old(frame.scrollTop), p0, p1, frame.offsetTop);
    m.StopDragging();
    m.HandleDragMove(p2);
  }
}
