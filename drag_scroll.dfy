/** The drag-to-scroll arithmetic shared by both device frames: a
    vertical pointer drag moves the frame's content the opposite way,
    amplified by a fixed factor. */
module DragScroll {

  const Amplification: real := 1.5

  /** The pointer's vertical position relative to the frame:
      `pageY - offsetTop`. */
  function PointerY(pageY: real, offsetTop: real): (y: real)
    ensures y + offsetTop == pageY
  {
    pageY - offsetTop
  }

  /** The scroll offset written on a move: `saved - (y - startY) * 1.5`.
      Dragging down scrolls the content up and dragging up scrolls it
      down, by one and a half times the distance dragged; a pointer back
      at its start restores the saved offset. */
  function DragOffset(saved: real, startY: real, y: real): (r: real)
    ensures y == startY ==> r == saved
    ensures y > startY <==> r < saved
    ensures y < startY <==> r > saved
  {
    saved - (y - startY) * Amplification
  }

  /** When the frame has not moved on the page between start and move,
      its offset cancels: the new offset is `saved - 1.5 * (p1 - p0)`
      in page coordinates. */
  lemma DragInPageCoordinates(saved: real, p0: real, p1: real, offsetTop: real)
    ensures DragOffset(saved, PointerY(p0, offsetTop), PointerY(p1, offsetTop)) == saved - 1.5 * (p1 - p0)
  {
  }
}
