/** The salon split-screen section: four one-way reveal latches (the section
    itself and its WhatsApp, voice and smart-filtering blocks) set by one
    intersection observer and by an initial viewport check. */
module SalonReveal {
  import opened Optional
  import opened Viewport

  const MobileMargin: int := 800
  const DesktopMargin: int := -50

  /** The element an observer entry is about. */
  datatype Target = SectionTarget | WhatsappTarget | VoiceTarget | SmartFilteringTarget | OtherTarget

  /** The four latches. */
  datatype Reveal = Reveal(section: bool, whatsapp: bool, voice: bool, smartFiltering: bool)

  function Initial(): (st: Reveal)
    ensures forall u :: !Flag(st, u)
  {
    Reveal(false, false, false, false)
  }

  /** The latch belonging to a target; an unknown target has none. */
  function Flag(st: Reveal, t: Target): bool {
    match t
    case SectionTarget => st.section
    case WhatsappTarget => st.whatsapp
    case VoiceTarget => st.voice
    case SmartFilteringTarget => st.smartFiltering
    case OtherTarget => false
  }

  /** Sets the latch of `t` and leaves the other three as they are. */
  function Latch(st: Reveal, t: Target): (r: Reveal)
    ensures forall u :: Flag(r, u) == (Flag(st, u) || (u == t && !t.OtherTarget?))
  {
    match t
    case SectionTarget => st.(section := true)
    case WhatsappTarget => st.(whatsapp := true)
    case VoiceTarget => st.(voice := true)
    case SmartFilteringTarget => st.(smartFiltering := true)
    case OtherTarget => st
  }

  /** The observer's root margin: on phones it reveals blocks 800px before
      they enter the viewport, elsewhere 50px after. */
  function ObserverRootMargin(innerWidth: int): (m: RootMargin)
    ensures m.top == 0 && m.right == 0 && m.left == 0
    ensures m.bottom > 0 <==> innerWidth < MobileBreakpoint
    ensures m.bottom == (if innerWidth < MobileBreakpoint then MobileMargin else DesktopMargin)
  {
    BottomMargin(if innerWidth < MobileBreakpoint then MobileMargin else DesktopMargin)
  }

  /** The observer's callback over a batch of entries: each intersecting
      entry sets the latch of the block it is about; nothing else changes. */
  function Observe(st: Reveal, entries: seq<Entry<Target>>): (r: Reveal)
    ensures forall u :: Flag(r, u) == (Flag(st, u) || (!u.OtherTarget? && Hit(entries, u)))
    decreases |entries|
  {
    if |entries| == 0 then st
    else
      var e := entries[0];
      var next := if e.isIntersecting then Latch(st, e.target) else st;
      var r := Observe(next, entries[1..]);
      HitSplitAll(entries);
      r
  }

  /** The delayed check after mount: the section's latch is set exactly when
      it was set already or its rectangle (absent when the ref is
      unattached) overlaps the viewport. */
  function InitialCheck(st: Reveal, section: Option<Rect>, innerHeight: real): (r: Reveal)
    ensures r.section <==> st.section || (section.Some? && OverlapsViewport(section.value, innerHeight))
    ensures forall u: Target :: !u.SectionTarget? ==> Flag(r, u) == Flag(st, u)
  {
    if section.Some? && OverlapsViewport(section.value, innerHeight) then Latch(st, SectionTarget)
    else st
  }

  /** Entries that do not report an intersection change nothing. */
  lemma NonIntersectingEntriesIgnored(st: Reveal, entries: seq<Entry<Target>>)
    requires forall i :: 0 <= i < |entries| ==> !entries[i].isIntersecting
    ensures Observe(st, entries) == st
  {
  }

  /** A single intersecting entry sets exactly its own block's latch. */
  lemma SingleEntrySetsOwnLatch(st: Reveal, t: Target)
    ensures var r := Observe(st, [Entry(t, true)]);
            forall u :: Flag(r, u) == (Flag(st, u) || (u == t && !t.OtherTarget?))
  {
  }

  datatype Event =
    | Entries(entries: seq<Entry<Target>>)
    | InitialCheckEvent(section: Option<Rect>, innerHeight: real)

  function Apply(st: Reveal, e: Event): (r: Reveal)
    ensures forall u :: Flag(st, u) ==> Flag(r, u)
  {
    match e
    case Entries(entries) => Observe(st, entries)
    case InitialCheckEvent(section, h) => InitialCheck(st, section, h)
  }

  function Run(st: Reveal, events: seq<Event>): Reveal
    decreases |events|
  {
    if |events| == 0 then st else Run(Apply(st, events[0]), events[1..])
  }

  /** The latches are monotone: every latch set before a sequence of events
      is still set after it. */
  lemma {:induction false} LatchesAreMonotone(st: Reveal, events: seq<Event>)
    ensures forall u :: Flag(st, u) ==> Flag(Run(st, events), u)
    decreases |events|
  {
    if |events| > 0 {
      LatchesAreMonotone(Apply(st, events[0]), events[1..]);
    }
  }
}
