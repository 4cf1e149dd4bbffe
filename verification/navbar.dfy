/** The floating navigation bar: it hides while the page scrolls down and
    shows again while it scrolls up, ignoring movements within a
    width-dependent threshold; scroll events are coalesced so that at most
    one animation-frame callback is pending; the mobile menu opens and
    closes; in-page links scroll to their section and close the menu.
    Scroll offsets and rectangles are CSS pixels, as reals. */
module Navbar {
  import opened Optional
  import Viewport

  const MobileThreshold: real := 20.0
  const DesktopThreshold: real := 5.0

  /** Offsets below this are "at the top". */
  const TopZone: real := 10.0

  /** Space left above a section scrolled to by an in-page link. */
  const NavbarHeight: real := 100.0

  /** The value of `isVisible` the scroll handler reads. The effect that
      installs the handler runs once, at mount, so its closure keeps the
      initial value `true` for the lifetime of the bar. */
  const MountedVisible: bool := true

  /** The bar's state: whether the mobile menu is open, whether the bar is
      shown, the offset seen by the last frame callback, whether a frame
      callback has been requested, and how many requested callbacks have
      not run yet. */
  datatype NavState = NavState(isOpen: bool, visible: bool, lastScrollY: real,
                               ticking: bool, pendingFrames: nat)

  /** At most one frame callback is pending, and exactly when `ticking` is set. */
  predicate Coalesced(st: NavState) {
    st.pendingFrames <= 1 && (st.ticking <==> st.pendingFrames == 1)
  }

  /** The bar as mounted: shown, menu closed, nothing scheduled. */
  function Initial(): (st: NavState)
    ensures Coalesced(st) && st.visible && !st.isOpen && st.lastScrollY == 0.0
    ensures !st.ticking && st.pendingFrames == 0
  {
    NavState(false, true, 0.0, false, 0)
  }

  /** The scroll distance that counts as a change of direction: larger on
      narrow (touch) viewports, whose momentum scrolling is noisier. */
  function Threshold(innerWidth: int): (t: real)
    ensures t > 0.0
    ensures t == MobileThreshold <==> innerWidth < Viewport.MobileBreakpoint
    ensures t == DesktopThreshold <==> innerWidth >= Viewport.MobileBreakpoint
  {
    if innerWidth < Viewport.MobileBreakpoint then MobileThreshold else DesktopThreshold
  }

  /** The frame callback, given the `isVisible` its closure captured. At the
      top it re-shows the bar only if the captured value says it is hidden;
      elsewhere a move down by more than the threshold hides it, a move up by
      more than the threshold shows it, and a smaller move keeps it. Every
      call records the offset and clears `ticking`. */
  function ControlNavbar(st: NavState, scrollY: real, innerWidth: int, capturedVisible: bool)
    : (r: NavState)
    ensures r.lastScrollY == scrollY && !r.ticking
    ensures r.isOpen == st.isOpen && r.pendingFrames == st.pendingFrames
    ensures scrollY < TopZone ==> r.visible == (st.visible || !capturedVisible)
    ensures scrollY >= TopZone && scrollY > st.lastScrollY + Threshold(innerWidth) ==> !r.visible
    ensures scrollY >= TopZone && scrollY < st.lastScrollY - Threshold(innerWidth) ==> r.visible
    ensures scrollY >= TopZone
            && st.lastScrollY - Threshold(innerWidth) <= scrollY <= st.lastScrollY + Threshold(innerWidth)
            ==> r.visible == st.visible
  {
    var t := Threshold(innerWidth);
    var visible :=
      if scrollY < TopZone then (if !capturedVisible then true else st.visible)
      else if scrollY > st.lastScrollY + t then false
      else if scrollY < st.lastScrollY - t then true
      else st.visible;
    st.(visible := visible, lastScrollY := scrollY, ticking := false)
  }

  /** A pending frame callback runs, as the source is written: with the
      `isVisible` captured at mount. */
  function FrameCallback(st: NavState, scrollY: real, innerWidth: int): (r: NavState)
    requires st.pendingFrames > 0
    ensures r.pendingFrames == st.pendingFrames - 1
    ensures scrollY < TopZone ==> r.visible == st.visible
    ensures r.lastScrollY == scrollY && !r.ticking && r.isOpen == st.isOpen
  {
    ControlNavbar(st.(pendingFrames := st.pendingFrames - 1), scrollY, innerWidth, MountedVisible)
  }

  /** A pending frame callback that reads the current `isVisible`, as the
      "always show at the top" rule intends. */
  function FrameCallbackLive(st: NavState, scrollY: real, innerWidth: int): (r: NavState)
    requires st.pendingFrames > 0
    ensures r.pendingFrames == st.pendingFrames - 1
    ensures scrollY < TopZone ==> r.visible
    ensures r.lastScrollY == scrollY && !r.ticking && r.isOpen == st.isOpen
  {
    ControlNavbar(st.(pendingFrames := st.pendingFrames - 1), scrollY, innerWidth, st.visible)
  }

  /** A scroll event: requests a frame callback unless one is already
      requested, and changes nothing else. */
  function HandleScroll(st: NavState): (r: NavState)
    ensures st.ticking ==> r == st
    ensures !st.ticking ==> r == st.(ticking := true, pendingFrames := st.pendingFrames + 1)
  {
    if st.ticking then st else st.(ticking := true, pendingFrames := st.pendingFrames + 1)
  }

  /** Where an in-page link's target sits: its `getBoundingClientRect().top`,
      and the two scroll offsets the page may report (`pageYOffset`, and
      `documentElement.scrollTop`, which is read when the first is 0). */
  datatype ElementBox = ElementBox(rectTop: real, pageYOffset: real, docScrollTop: real)

  /** The element's distance from the top of the document. */
  function AbsoluteTop(e: ElementBox): real {
    e.rectTop + (if e.pageYOffset != 0.0 then e.pageYOffset else e.docScrollTop)
  }

  predicate IsRoute(href: string) {
    |href| > 0 && href[0] == '/'
  }

  datatype LinkResult = LinkResult(state: NavState, scrollTarget: Option<real>)

  /** An in-page link clicked. A route (an href starting with "/") is left
      to the router and changes nothing. Otherwise, if the element is found
      the page scrolls so that it sits `NavbarHeight` below the top, never
      above offset 0; and the menu closes whether or not it was found. */
  function ScrollToSection(st: NavState, href: string, element: Option<ElementBox>): (r: LinkResult)
    ensures IsRoute(href) ==> r == LinkResult(st, None)
    ensures !IsRoute(href) ==> r.state == st.(isOpen := false)
    ensures r.scrollTarget.Some? <==> !IsRoute(href) && element.Some?
    ensures r.scrollTarget.Some? ==>
              && r.scrollTarget.value >= 0.0
              && r.scrollTarget.value >= AbsoluteTop(element.value) - NavbarHeight
              && (r.scrollTarget.value == 0.0
                  || r.scrollTarget.value + NavbarHeight == AbsoluteTop(element.value))
  {
    if IsRoute(href) then LinkResult(st, None)
    else
      var target :=
        match element
        case None => None
        case Some(e) =>
          var top := AbsoluteTop(e) - NavbarHeight;
          Some(if top > 0.0 then top else 0.0);
      LinkResult(st.(isOpen := false), target)
  }

  /** The menu button flips the mobile menu; nothing else changes. */
  function ToggleMenu(st: NavState): (r: NavState)
    ensures r.isOpen != st.isOpen
    ensures r.(isOpen := st.isOpen) == st
  {
    st.(isOpen := !st.isOpen)
  }

  /** The backdrop, and a route link in the mobile menu, close the menu. */
  function CloseMenu(st: NavState): (r: NavState)
    ensures !r.isOpen
    ensures r.(isOpen := st.isOpen) == st
  {
    st.(isOpen := false)
  }

  // ---------------------------------------------------------------------------
  // Event sequences
  // ---------------------------------------------------------------------------

  datatype Event =
    | ScrollEvent
    | FrameEvent(scrollY: real, innerWidth: int)
    | ToggleMenuEvent
    | CloseMenuEvent
    | SectionLinkEvent(href: string, element: Option<ElementBox>)

  /** One event. A frame callback only runs when one was requested; the
      browser never delivers an unrequested one. */
  function Apply(st: NavState, e: Event): (r: NavState)
    requires Coalesced(st)
    ensures Coalesced(r)
    ensures !e.FrameEvent? ==> r.visible == st.visible && r.lastScrollY == st.lastScrollY
  {
    match e
    case ScrollEvent => HandleScroll(st)
    case FrameEvent(y, w) => if st.pendingFrames > 0 then FrameCallback(st, y, w) else st
    case ToggleMenuEvent => ToggleMenu(st)
    case CloseMenuEvent => CloseMenu(st)
    case SectionLinkEvent(href, element) => ScrollToSection(st, href, element).state
  }

  /** A sequence of events applied in order. */
  function Run(st: NavState, events: seq<Event>): (r: NavState)
    requires Coalesced(st)
    ensures Coalesced(r)
    decreases |events|
  {
    if |events| == 0 then st else Run(Apply(st, events[0]), events[1..])
  }

  /** However many scroll events arrive, from the mounted bar on at most one
      frame callback is ever pending. */
  lemma AtMostOneFramePending(events: seq<Event>)
    ensures Run(Initial(), events).pendingFrames <= 1
  {
  }

  /** Without frame callbacks, the bar's visibility and recorded offset
      never change, however many scroll events arrive. */
  lemma {:induction false} OnlyFramesMoveTheBar(st: NavState, events: seq<Event>)
    requires Coalesced(st)
    requires forall i :: 0 <= i < |events| ==> !events[i].FrameEvent?
    ensures Run(st, events).visible == st.visible
    ensures Run(st, events).lastScrollY == st.lastScrollY
    decreases |events|
  {
    if |events| > 0 {
      OnlyFramesMoveTheBar(Apply(st, events[0]), events[1..]);
    }
  }

  // ---------------------------------------------------------------------------
  // Scenarios
  // ---------------------------------------------------------------------------

  /** On a wide viewport, a jump from 0 to 500 hides the bar and a move back
      to 480 (20 up, more than the threshold of 5) shows it again. */
  lemma JumpDownThenUp()
    ensures
      var s1 := Run(Initial(), [ScrollEvent, FrameEvent(500.0, 1280)]);
      var s2 := Run(s1, [ScrollEvent, FrameEvent(480.0, 1280)]);
      !s1.visible && s2.visible
  {
  }

  /** The bar hidden at offset 500 stays hidden when a single frame lands at
      the top: the captured `isVisible` is `true`, so the top rule does not
      fire. The live reading shows it. */
  lemma HiddenBarStaysHiddenAtTop()
    ensures
      var hidden := NavState(false, false, 500.0, true, 1);
      && !FrameCallback(hidden, 0.0, 1280).visible
      && FrameCallbackLive(hidden, 0.0, 1280).visible
  {
  }
}
