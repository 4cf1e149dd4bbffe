/** The dealership split-screen section. Five one-way reveal latches (the
    section itself, the WhatsApp, voice and service blocks, and the
    "smart filtering" tyre-kickers block) are set by two intersection
    observers, by an initial viewport check and, on narrow screens, by a
    scroll check; on wide screens the scroll handler stores the scroll
    offset that drives the parallax of the WhatsApp and voice images. */
module BeforeAfter {
  import opened Optional
  import opened Viewport

  /** Below this width there is no parallax and the scroll handler checks
      the tyre-kickers block instead of storing the offset. */
  const DesktopBreakpoint: int := 1024

  const MainMobileMargin: int := 600
  const TyreKickersMobileMargin: int := 1500
  const DesktopMargin: int := -50

  /** How far below the viewport the scroll check already reveals the
      tyre-kickers block. */
  const ScrollTriggerDistance: real := 1200.0

  /** Largest parallax offset, reached once the section is scrolled through. */
  const ParallaxRange: real := 80.0

  /** The voice image moves at half the WhatsApp image's rate. */
  const VoiceParallaxFactor: real := 0.5

  /** The element an observer entry is about. */
  datatype Target =
    | SectionTarget | WhatsappTarget | VoiceTarget | ServiceTarget | TyreKickersTarget
    | OtherTarget

  /** The five latches and the stored scroll offset. */
  datatype Reveal = Reveal(section: bool, whatsapp: bool, voice: bool, service: bool,
                           tyreKickers: bool, scrollY: real)

  function Initial(): (st: Reveal)
    ensures forall u :: !Flag(st, u)
    ensures st.scrollY == 0.0
  {
    Reveal(false, false, false, false, false, 0.0)
  }

  /** The latch belonging to a target; an unknown target has none. */
  function Flag(st: Reveal, t: Target): bool {
    match t
    case SectionTarget => st.section
    case WhatsappTarget => st.whatsapp
    case VoiceTarget => st.voice
    case ServiceTarget => st.service
    case TyreKickersTarget => st.tyreKickers
    case OtherTarget => false
  }

  /** Sets the latch of `t` and nothing else. */
  function Latch(st: Reveal, t: Target): (r: Reveal)
    ensures forall u :: Flag(r, u) == (Flag(st, u) || (u == t && !t.OtherTarget?))
    ensures r.scrollY == st.scrollY
  {
    match t
    case SectionTarget => st.(section := true)
    case WhatsappTarget => st.(whatsapp := true)
    case VoiceTarget => st.(voice := true)
    case ServiceTarget => st.(service := true)
    case TyreKickersTarget => st.(tyreKickers := true)
    case OtherTarget => st
  }

  // ---------------------------------------------------------------------------
  // Observers
  // ---------------------------------------------------------------------------

  /** Root margin of the main observer: on phones it reveals sections 600px
      before they enter the viewport, elsewhere 50px after. */
  function MainRootMargin(innerWidth: int): (m: RootMargin)
    ensures innerWidth < MobileBreakpoint ==> m == RootMargin(0, 0, 600, 0)
    ensures innerWidth >= MobileBreakpoint ==> m == RootMargin(0, 0, -50, 0)
    ensures m.bottom > 0 <==> innerWidth < MobileBreakpoint
  {
    BottomMargin(if innerWidth < MobileBreakpoint then MainMobileMargin else DesktopMargin)
  }

  /** Root margin of the tyre-kickers observer: 1500px early on phones. */
  function TyreKickersRootMargin(innerWidth: int): (m: RootMargin)
    ensures innerWidth < MobileBreakpoint ==> m == RootMargin(0, 0, 1500, 0)
    ensures innerWidth >= MobileBreakpoint ==> m == RootMargin(0, 0, -50, 0)
    ensures m.bottom > 0 <==> innerWidth < MobileBreakpoint
  {
    BottomMargin(if innerWidth < MobileBreakpoint then TyreKickersMobileMargin else DesktopMargin)
  }

  /** On phones both observers reveal before the viewport, the tyre-kickers
      one further ahead; elsewhere both use the same negative margin. */
  lemma RootMarginChoice(innerWidth: int)
    ensures innerWidth < MobileBreakpoint ==>
              0 < MainRootMargin(innerWidth).bottom < TyreKickersRootMargin(innerWidth).bottom
    ensures innerWidth >= MobileBreakpoint ==>
              MainRootMargin(innerWidth) == TyreKickersRootMargin(innerWidth)
              && MainRootMargin(innerWidth).bottom < 0
    ensures MainRootMargin(innerWidth).top == 0 && TyreKickersRootMargin(innerWidth).top == 0
  {
  }

  /** The targets the main observer's callback dispatches on. */
  predicate MainHandles(t: Target) {
    t.SectionTarget? || t.WhatsappTarget? || t.VoiceTarget? || t.ServiceTarget?
  }

  /** The main observer's callback over a batch of entries: each
      intersecting entry about the section or the WhatsApp, voice or service
      block sets that block's latch; nothing else changes. */
  function MainObserver(st: Reveal, entries: seq<Entry<Target>>): (r: Reveal)
    ensures forall u :: Flag(r, u) == (Flag(st, u) || (MainHandles(u) && Hit(entries, u)))
    ensures r.scrollY == st.scrollY
    decreases |entries|
  {
    if |entries| == 0 then st
    else
      var e := entries[0];
      var next := if e.isIntersecting && MainHandles(e.target) then Latch(st, e.target) else st;
      var r := MainObserver(next, entries[1..]);
      HitSplitAll(entries);
      r
  }

  /** The tyre-kickers observer's callback: an intersecting entry about the
      tyre-kickers block sets its latch; nothing else changes. */
  function TyreKickersObserver(st: Reveal, entries: seq<Entry<Target>>): (r: Reveal)
    ensures forall u :: Flag(r, u) == (Flag(st, u) || (u.TyreKickersTarget? && Hit(entries, u)))
    ensures r.scrollY == st.scrollY
    decreases |entries|
  {
    if |entries| == 0 then st
    else
      var e := entries[0];
      var next := if e.isIntersecting && e.target.TyreKickersTarget? then Latch(st, e.target) else st;
      var r := TyreKickersObserver(next, entries[1..]);
      HitSplitAll(entries);
      r
  }

  /** The delayed check after mount: if the section's rectangle (absent when
      its ref is unattached) overlaps the viewport, its latch is set. */
  function InitialCheck(st: Reveal, section: Option<Rect>, innerHeight: real): (r: Reveal)
    ensures r.section <==> st.section || (section.Some? && OverlapsViewport(section.value, innerHeight))
    ensures forall u: Target :: !u.SectionTarget? ==> Flag(r, u) == Flag(st, u)
    ensures r.scrollY == st.scrollY
  {
    if section.Some? && OverlapsViewport(section.value, innerHeight) then Latch(st, SectionTarget)
    else st
  }

  // ---------------------------------------------------------------------------
  // Scroll and resize
  // ---------------------------------------------------------------------------

  /** A scroll event. On wide screens it stores `window.scrollY` and touches
      no latch. On narrow screens it reveals the tyre-kickers block once its
      top (absent when the ref is unattached) is less than 1200px below the
      viewport, and stores nothing. */
  function OnScroll(st: Reveal, innerWidth: int, windowScrollY: real,
                    tyreKickersTop: Option<real>, innerHeight: real): (r: Reveal)
    ensures innerWidth >= DesktopBreakpoint ==> r == st.(scrollY := windowScrollY)
    ensures innerWidth < DesktopBreakpoint ==>
              && r.scrollY == st.scrollY
              && (forall u: Target :: !u.TyreKickersTarget? ==> Flag(r, u) == Flag(st, u))
              && (r.tyreKickers <==>
                    (st.tyreKickers ||
                     (tyreKickersTop.Some? && tyreKickersTop.value < innerHeight + ScrollTriggerDistance)))
  {
    if innerWidth >= DesktopBreakpoint then st.(scrollY := windowScrollY)
    else if tyreKickersTop.Some? && !st.tyreKickers
            && tyreKickersTop.value < innerHeight + ScrollTriggerDistance then
      Latch(st, TyreKickersTarget)
    else st
  }

  /** A resize event: below the desktop width the stored offset drops to 0;
      the latches never change. */
  function OnResize(st: Reveal, innerWidth: int): (r: Reveal)
    ensures innerWidth < DesktopBreakpoint ==> r == st.(scrollY := 0.0)
    ensures innerWidth >= DesktopBreakpoint ==> r == st
  {
    if innerWidth < DesktopBreakpoint then st.(scrollY := 0.0) else st
  }

  // ---------------------------------------------------------------------------
  // Event sequences
  // ---------------------------------------------------------------------------

  datatype Event =
    | MainEntries(entries: seq<Entry<Target>>)
    | TyreKickersEntries(entries: seq<Entry<Target>>)
    | InitialCheckEvent(section: Option<Rect>, innerHeight: real)
    | ScrollEvent(innerWidth: int, windowScrollY: real, tyreKickersTop: Option<real>, innerHeight: real)
    | ResizeEvent(innerWidth: int)

  /** One event. No event clears a latch, and only the tyre-kickers
      observer and the scroll check set the tyre-kickers latch. */
  function Apply(st: Reveal, e: Event): (r: Reveal)
    ensures forall u :: Flag(st, u) ==> Flag(r, u)
    ensures !e.TyreKickersEntries? && !e.ScrollEvent? ==> r.tyreKickers == st.tyreKickers
  {
    match e
    case MainEntries(entries) =>
      var r := MainObserver(st, entries);
      assert Flag(r, TyreKickersTarget) == Flag(st, TyreKickersTarget);
      r
    case TyreKickersEntries(entries) => TyreKickersObserver(st, entries)
    case InitialCheckEvent(section, h) => InitialCheck(st, section, h)
    case ScrollEvent(w, y, top, h) => OnScroll(st, w, y, top, h)
    case ResizeEvent(w) => OnResize(st, w)
  }

  /** A sequence of events applied in order. */
  function Run(st: Reveal, events: seq<Event>): Reveal
    decreases |events|
  {
    if |events| == 0 then st else Run(Apply(st, events[0]), events[1..])
  }

  /** Every latch is one-way: once set, no sequence of events clears it. */
  lemma {:induction false} LatchesAreOneWay(st: Reveal, events: seq<Event>, u: Target)
    requires Flag(st, u)
    ensures Flag(Run(st, events), u)
    decreases |events|
  {
    if |events| > 0 {
      LatchesAreOneWay(Apply(st, events[0]), events[1..], u);
    }
  }

  /** The main observer never reveals the tyre-kickers block: without
      tyre-kickers observer batches and scroll events its latch stays put. */
  lemma {:induction false} TyreKickersOwnTriggers(st: Reveal, events: seq<Event>)
    requires forall i :: 0 <= i < |events| ==>
               !events[i].TyreKickersEntries? && !events[i].ScrollEvent?
    ensures Run(st, events).tyreKickers == st.tyreKickers
    decreases |events|
  {
    if |events| > 0 {
      TyreKickersOwnTriggers(Apply(st, events[0]), events[1..]);
    }
  }

  // ---------------------------------------------------------------------------
  // Parallax
  // ---------------------------------------------------------------------------

  /** A number of CSS pixels, or JavaScript's NaN. */
  datatype Pixels = Px(amount: real) | NotANumber

  /** `Math.max(0, Math.min(1, x))` on a finite `x`. */
  function Clamp01(x: real): (c: real)
    ensures 0.0 <= c <= 1.0
    ensures 0.0 <= x <= 1.0 ==> c == x
  {
    if x < 0.0 then 0.0 else if x > 1.0 then 1.0 else x
  }

  /** How far the viewport's middle has moved past the section's top: the
      stored offset plus half the viewport, minus the section's document
      top (its rectangle's top plus the live `window.scrollY`). */
  function ScrollInto(rect: Rect, scrollY: real, windowScrollY: real, innerHeight: real): real {
    scrollY + innerHeight / 2.0 - (rect.top + windowScrollY)
  }

  /** The parallax offset of a block, given its rectangle (absent when the
      ref is unattached): 0 on narrow screens; otherwise the fraction of the
      block scrolled through, clamped to [0, 1], times 80. A block of height
      0 divides by zero: a positive distance gives Infinity, clamped to the
      full 80, a negative one 0, and a zero one NaN. */
  function ParallaxOffset(rect: Option<Rect>, innerWidth: int, scrollY: real,
                          windowScrollY: real, innerHeight: real): (p: Pixels)
    requires rect.Some? ==> rect.value.height >= 0.0
    ensures rect.None? || innerWidth < DesktopBreakpoint ==> p == Px(0.0)
    ensures p.Px? ==> 0.0 <= p.amount <= ParallaxRange
    ensures p.NotANumber? <==>
              rect.Some? && innerWidth >= DesktopBreakpoint && rect.value.height == 0.0
              && ScrollInto(rect.value, scrollY, windowScrollY, innerHeight) == 0.0
  {
    if rect.None? || innerWidth < DesktopBreakpoint then Px(0.0)
    else
      var into := ScrollInto(rect.value, scrollY, windowScrollY, innerHeight);
      var h := rect.value.height;
      if h > 0.0 then Px(Clamp01(into / h) * ParallaxRange)
      else if into > 0.0 then Px(ParallaxRange)
      else if into < 0.0 then Px(0.0)
      else NotANumber
  }

  /** The voice image's offset: half the block's parallax offset. */
  function VoiceParallax(rect: Option<Rect>, innerWidth: int, scrollY: real,
                         windowScrollY: real, innerHeight: real): (p: Pixels)
    requires rect.Some? ==> rect.value.height >= 0.0
    ensures p.Px? ==> 0.0 <= p.amount <= ParallaxRange * VoiceParallaxFactor
    ensures p.NotANumber? <==> ParallaxOffset(rect, innerWidth, scrollY, windowScrollY, innerHeight).NotANumber?
    ensures p.Px? ==>
              2.0 * p.amount == ParallaxOffset(rect, innerWidth, scrollY, windowScrollY, innerHeight).amount
  {
    match ParallaxOffset(rect, innerWidth, scrollY, windowScrollY, innerHeight)
    case Px(a) => Px(a * VoiceParallaxFactor)
    case NotANumber => NotANumber
  }

  /** A distance of at least the height is at least one height. */
  lemma QuotientAtLeastOne(a: real, h: real)
    requires h > 0.0 && a >= h
    ensures a / h >= 1.0
  {
    assert (a - h) / h >= 0.0;
    assert a / h == (a - h) / h + h / h;
  }

  /** A distance between 0 and the height is between 0 and one height. */
  lemma QuotientAtMostOne(a: real, h: real)
    requires h > 0.0 && 0.0 <= a <= h
    ensures 0.0 <= a / h <= 1.0
  {
    assert (h - a) / h >= 0.0;
    assert h / h == a / h + (h - a) / h;
  }

  /** For a block of positive height the offset is 0 until the viewport's
      middle reaches its top, the full 80 once it has passed its bottom, and
      in between proportional to the distance scrolled. */
  lemma ParallaxTracksProgress(rect: Rect, innerWidth: int, scrollY: real,
                               windowScrollY: real, innerHeight: real)
    requires rect.height > 0.0 && innerWidth >= DesktopBreakpoint
    ensures var into := ScrollInto(rect, scrollY, windowScrollY, innerHeight);
            var p := ParallaxOffset(Some(rect), innerWidth, scrollY, windowScrollY, innerHeight);
            && (into <= 0.0 ==> p == Px(0.0))
            && (into >= rect.height ==> p == Px(ParallaxRange))
            && (0.0 <= into <= rect.height ==> p == Px(into * ParallaxRange / rect.height))
  {
    var into := ScrollInto(rect, scrollY, windowScrollY, innerHeight);
    var h := rect.height;
    var p := ParallaxOffset(Some(rect), innerWidth, scrollY, windowScrollY, innerHeight);
    assert p == Px(Clamp01(into / h) * ParallaxRange);
    if into <= 0.0 {
      assert into / h <= 0.0;
    }
    if into >= h {
      QuotientAtLeastOne(into, h);
    }
    if 0.0 <= into <= h {
      QuotientAtMostOne(into, h);
      assert Clamp01(into / h) == into / h;
      assert into / h * ParallaxRange == into * ParallaxRange / h;
    }
  }

  /** The voice image follows the same course at half the scale: 0 until
      the viewport's middle reaches the block's top, 40 once it has passed
      its bottom, and in between proportional to the distance scrolled. */
  lemma VoiceParallaxTracksProgress(rect: Rect, innerWidth: int, scrollY: real,
                                    windowScrollY: real, innerHeight: real)
    requires rect.height > 0.0 && innerWidth >= DesktopBreakpoint
    ensures var into := ScrollInto(rect, scrollY, windowScrollY, innerHeight);
            var p := VoiceParallax(Some(rect), innerWidth, scrollY, windowScrollY, innerHeight);
            && (into <= 0.0 ==> p == Px(0.0))
            && (into >= rect.height ==> p == Px(40.0))
            && (0.0 <= into <= rect.height ==> p == Px(into * 40.0 / rect.height))
  {
    ParallaxTracksProgress(rect, innerWidth, scrollY, windowScrollY, innerHeight);
  }

  /** Scrolling further down never moves a block's image back up: the
      offset grows with the stored scroll offset. */
  lemma ParallaxMonotone(rect: Rect, innerWidth: int, y1: real, y2: real,
                         windowScrollY: real, innerHeight: real)
    requires rect.height > 0.0 && y1 <= y2
    ensures ParallaxOffset(Some(rect), innerWidth, y1, windowScrollY, innerHeight).amount
            <= ParallaxOffset(Some(rect), innerWidth, y2, windowScrollY, innerHeight).amount
  {
    if innerWidth >= DesktopBreakpoint {
      var a := ScrollInto(rect, y1, windowScrollY, innerHeight);
      var b := ScrollInto(rect, y2, windowScrollY, innerHeight);
      assert a <= b;
      assert a / rect.height <= b / rect.height;
    }
  }
}
