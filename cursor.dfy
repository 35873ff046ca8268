/**
 * The custom cursor overlay (CustomCursor): a small dot and a larger ring that
 * follow the pointer and grow while the pointer is over an interactive element.
 *
 * Coordinates are whole pixels in the viewport. The spring easing of the overlay
 * is not part of this model: these functions give the targets the markers are
 * animated towards.
 */
module CustomCursor {
  import opened Wrappers

  /** The dot is 16 by 16 pixels (`w-4 h-4`). */
  const DotSize: int := 16
  /** The ring is 40 by 40 pixels (`w-10 h-10`). */
  const RingSize: int := 40
  /** Scale of the dot while hovering. */
  const DotHoverScale: real := 2.5
  /** Scale of the ring while hovering. */
  const RingHoverScale: real := 1.5

  /** The component's state: last pointer position and the hover flag. */
  datatype CursorState = CursorState(x: int, y: int, isHovering: bool)

  /** A marker's animation target: the translation of its top-left corner and its scale. */
  datatype Marker = Marker(x: int, y: int, scale: real)

  /** A DOM element as far as the selector `a, button, [data-hover]` can see it. */
  datatype Element = Element(tag: string, attributes: set<string>)

  /** Matches the selector `a, button, [data-hover]` (tag names in lower case). */
  predicate IsInteractive(e: Element) {
    e.tag == "a" || e.tag == "button" || "data-hover" in e.attributes
  }

  /**
   * `Element.closest`: given the event target followed by its ancestors up to the
   * root, the position of the nearest one that is interactive, if any.
   */
  function Closest(chain: seq<Element>): (r: Option<nat>)
    ensures r.Some? ==> r.value < |chain| && IsInteractive(chain[r.value])
    ensures r.Some? ==> forall j :: 0 <= j < r.value ==> !IsInteractive(chain[j])
    ensures r.None? ==> forall j :: 0 <= j < |chain| ==> !IsInteractive(chain[j])
  {
    if chain == [] then None
    else if IsInteractive(chain[0]) then Some(0)
    else
      match Closest(chain[1..])
      case None => None
      case Some(i) => Some(i + 1)
  }

  /** The mouse-move listener: the state keeps the event's viewport coordinates. */
  function UpdatePosition(s: CursorState, clientX: int, clientY: int): (r: CursorState)
    ensures r.isHovering == s.isHovering
    ensures r.x == clientX && r.y == clientY
  {
    s.(x := clientX, y := clientY)
  }

  /**
   * The mouse-over listener: hovering exactly when the target or one of its
   * ancestors is a link, a button or marked `data-hover`; the position is untouched.
   */
  function HandleMouseOver(s: CursorState, chain: seq<Element>): (r: CursorState)
    ensures r.isHovering <==> exists i :: 0 <= i < |chain| && IsInteractive(chain[i])
    ensures r.x == s.x && r.y == s.y
  {
    s.(isHovering := Closest(chain).Some?)
  }

  /** Several mouse-move events delivered in order. */
  function ApplyMoves(s: CursorState, moves: seq<(int, int)>): CursorState
    decreases |moves|
  {
    if moves == [] then s else ApplyMoves(UpdatePosition(s, moves[0].0, moves[0].1), moves[1..])
  }

  /**
   * Moves coalesced between two frames leave the state at the most recent
   * position, whatever came before, with the hover flag unchanged.
   */
  lemma {:induction false} LatestPositionWins(s: CursorState, moves: seq<(int, int)>)
    requires |moves| > 0
    ensures ApplyMoves(s, moves) == CursorState(moves[|moves| - 1].0, moves[|moves| - 1].1, s.isHovering)
    decreases |moves|
  {
    if |moves| > 1 {
      LatestPositionWins(UpdatePosition(s, moves[0].0, moves[0].1), moves[1..]);
      assert moves[1..][|moves[1..]| - 1] == moves[|moves| - 1];
    }
  }

  /** The inner dot: centred on the pointer, enlarged only while hovering. */
  function Dot(s: CursorState): (m: Marker)
    ensures m.x + DotSize / 2 == s.x && m.y + DotSize / 2 == s.y
    ensures m.scale >= 1.0 && (m.scale > 1.0 <==> s.isHovering)
  {
    Marker(s.x - 8, s.y - 8, if s.isHovering then DotHoverScale else 1.0)
  }

  /** The outer ring: centred on the pointer, enlarged only while hovering. */
  function Ring(s: CursorState): (m: Marker)
    ensures m.x + RingSize / 2 == s.x && m.y + RingSize / 2 == s.y
    ensures m.scale >= 1.0 && (m.scale > 1.0 <==> s.isHovering)
  {
    Marker(s.x - 20, s.y - 20, if s.isHovering then RingHoverScale else 1.0)
  }

  /**
   * The two markers share one centre, and on hover the dot grows to 2.5 times and
   * the ring to 1.5 times its size, so the dot grows more than the ring.
   */
  lemma MarkersConcentric(s: CursorState)
    ensures Dot(s).x + DotSize / 2 == Ring(s).x + RingSize / 2
    ensures Dot(s).y + DotSize / 2 == Ring(s).y + RingSize / 2
    ensures s.isHovering ==> Dot(s).scale == 2.5 && Ring(s).scale == 1.5 && Dot(s).scale > Ring(s).scale
    ensures !s.isHovering ==> Dot(s).scale == Ring(s).scale == 1.0
  {
  }
}
