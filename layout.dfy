/** What the components read from and write to the browser: the
    responsive breakpoint and the scrollable device-frame element. */
module Layout {

  /** Viewports narrower than this use the compact, linear layout. */
  const MobileBreakpoint: int := 768

  /** `window.innerWidth < 768`. */
  function IsMobile(innerWidth: int): (r: bool)
    ensures r <==> innerWidth < MobileBreakpoint
  {
    innerWidth < MobileBreakpoint
  }

  /** 768 is the only switch point: a window at least as wide as a
      wide one is wide, one at most as wide as a compact one is compact,
      and the last compact width is 767. */
  lemma BreakpointIsOnlySwitch(w1: int, w2: int)
    requires w1 <= w2
    ensures IsMobile(w2) ==> IsMobile(w1)
    ensures !IsMobile(w1) ==> !IsMobile(w2)
    ensures IsMobile(767) && !IsMobile(768)
  {
  }

  /** The scrollable element inside a device frame: its offset from its
      offset parent and its internal scroll offset. The browser (native
      wheel or touch scrolling, layout) may change both at any time. */
  class ScrollFrame {
    var offsetTop: real
    var scrollTop: real

    constructor (offsetTop: real, scrollTop: real)
      ensures this.offsetTop == offsetTop && this.scrollTop == scrollTop
    {
      this.offsetTop := offsetTop;
      this.scrollTop := scrollTop;
    }
  }
}
