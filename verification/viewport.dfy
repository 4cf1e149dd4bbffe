/** What the components read from the browser's layout host, taken as plain
    values: bounding rectangles, intersection-observer entries and the
    observer's root margin. */
module Viewport {

  /** `window.innerWidth` below this is treated as a phone by every component. */
  const MobileBreakpoint: int := 768

  /** The part of a `getBoundingClientRect()` result the components read,
      in CSS pixels relative to the top of the viewport. */
  datatype Rect = Rect(top: real, bottom: real, height: real)

  /** A rectangle as the browser produces it: its height is never negative
      and it spans from `top` to `bottom`. */
  predicate WellFormed(r: Rect) {
    r.height >= 0.0 && r.bottom == r.top + r.height
  }

  /** One `IntersectionObserverEntry`: which observed element it is about
      and whether that element now intersects the (margin-extended) root. */
  datatype Entry<T> = Entry(target: T, isIntersecting: bool)

  /** Some entry of the batch reports `t` intersecting. */
  predicate Hit<T(==)>(entries: seq<Entry<T>>, t: T) {
    exists i :: 0 <= i < |entries| && entries[i].isIntersecting && entries[i].target == t
  }

  /** A batch's hits are its first entry's and those of the rest. */
  lemma HitSplit<T>(entries: seq<Entry<T>>, t: T)
    requires |entries| > 0
    ensures Hit(entries, t) <==>
              (entries[0].isIntersecting && entries[0].target == t) || Hit(entries[1..], t)
  {
  }

  /** `HitSplit` for every target at once. */
  lemma HitSplitAll<T>(entries: seq<Entry<T>>)
    requires |entries| > 0
    ensures forall t :: Hit(entries, t) <==>
              (entries[0].isIntersecting && entries[0].target == t) || Hit(entries[1..], t)
  {
  }

  /** The test both initial-visibility checks apply: some part of the
      rectangle lies vertically inside a viewport of height `innerHeight`. */
  predicate OverlapsViewport(r: Rect, innerHeight: real) {
    r.top < innerHeight && r.bottom > 0.0
  }

  /** An observer's `rootMargin`, one integer pixel count per side in CSS
      order (top, right, bottom, left). */
  datatype RootMargin = RootMargin(top: int, right: int, bottom: int, left: int)

  /** A margin that only moves the bottom edge of the root: positive values
      reveal sections before they scroll into view, negative ones after. */
  function BottomMargin(px: int): (m: RootMargin)
    ensures m.top == 0 && m.right == 0 && m.left == 0
    ensures m.bottom == px
  {
    RootMargin(0, 0, px, 0)
  }
}
