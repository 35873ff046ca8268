/**
 * The drag-to-scroll controller of the "Hall of Fame" carousel (HackathonGallery).
 *
 * The component keeps three pieces of state (`isDragging`, `startX`, `scrollLeft`)
 * and writes the scroll offset of the container element it holds a ref to.
 * The handlers are wired as: mouse-down -> HandleMouseDown, mouse-up and
 * mouse-leave -> HandleMouseUp, mouse-move -> HandleMouseMove.
 *
 * `DragState` and `Step` give the handlers' meaning as a pure transition function
 * over events; the class `HackathonGallery` implements the handlers imperatively and
 * each handler is proved to perform exactly one `Step`.
 */
module DragScroll {

  /** Pointer movement is amplified by this factor (`walk = (x - startX) * 2`). */
  const DragGain: int := 2

  /**
   * Abstract state of one carousel: the component's three state variables and
   * `offset`, the container's live `scrollLeft`.
   */
  datatype DragState = DragState(isDragging: bool, startX: int, scrollLeft: int, offset: int)

  /** The mouse events the container listens to; `pageX` is the event's page coordinate. */
  datatype MouseEvent = MouseDown(pageX: int) | MouseUp | MouseLeave | MouseMove(pageX: int)

  /** State on mount: `useState(false)`, `useState(0)`, `useState(0)`. */
  function Initial(offset: int): DragState {
    DragState(false, 0, 0, offset)
  }

  /** Pointer position relative to the container's left edge. */
  function PointerX(pageX: int, offsetLeft: int): int {
    pageX - offsetLeft
  }

  /**
   * The offset a drag that started at pointer `startX` over offset `origin` sets
   * when the pointer is at `x`: the content follows the pointer at twice its speed.
   */
  function DragOffset(origin: int, startX: int, x: int): (r: int)
    ensures x == startX ==> r == origin
    ensures x < startX <==> r > origin
    ensures r - origin == DragGain * (startX - x)
  {
    origin - (x - startX) * DragGain
  }

  /**
   * One handler invocation; `offsetLeft` is the container's left edge on the page.
   * The drag flag is set by a press and kept only by moves; the live offset changes
   * only on a move during a drag; the stored origin changes only on a press.
   */
  function Step(s: DragState, offsetLeft: int, e: MouseEvent): (r: DragState)
    ensures r.isDragging <==> e.MouseDown? || (s.isDragging && e.MouseMove?)
    ensures r.offset != s.offset ==> s.isDragging && e.MouseMove?
    ensures !e.MouseDown? ==> r.startX == s.startX && r.scrollLeft == s.scrollLeft
    ensures e.MouseMove? && s.isDragging ==> r.offset - s.scrollLeft == DragGain * (s.startX - PointerX(e.pageX, offsetLeft))
  {
    match e
    case MouseDown(pageX) =>
      // no guard: a press during a drag replaces the origin
      s.(isDragging := true, startX := PointerX(pageX, offsetLeft), scrollLeft := s.offset)
    case MouseUp => s.(isDragging := false)
    case MouseLeave => s.(isDragging := false)
    case MouseMove(pageX) =>
      if !s.isDragging then s
      else s.(offset := DragOffset(s.scrollLeft, s.startX, PointerX(pageX, offsetLeft)))
  }

  /** True when a sequence of events contains no press. */
  predicate NoPress(events: seq<MouseEvent>) {
    forall i :: 0 <= i < |events| ==> !events[i].MouseDown?
  }

  /**
   * The handlers applied to a sequence of events in order. Without a press the
   * stored origin never changes, and an idle carousel ignores everything.
   */
  function Run(s: DragState, offsetLeft: int, events: seq<MouseEvent>): (r: DragState)
    ensures NoPress(events) ==> r.startX == s.startX && r.scrollLeft == s.scrollLeft
    ensures NoPress(events) && !s.isDragging ==> r == s
    decreases |events|
  {
    if events == [] then s
    else
      assert NoPress(events) ==> NoPress(events[1..]);
      Run(Step(s, offsetLeft, events[0]), offsetLeft, events[1..])
  }

  /** The move events for a sequence of pointer positions. */
  function Moves(xs: seq<int>): (r: seq<MouseEvent>)
    ensures |r| == |xs|
    ensures forall i :: 0 <= i < |xs| ==> r[i] == MouseMove(xs[i])
  {
    if xs == [] then [] else [MouseMove(xs[0])] + Moves(xs[1..])
  }

  /** Running two sequences one after the other is running their concatenation. */
  lemma {:induction false} RunAppend(s: DragState, offsetLeft: int, a: seq<MouseEvent>, b: seq<MouseEvent>)
    ensures Run(s, offsetLeft, a + b) == Run(Run(s, offsetLeft, a), offsetLeft, b)
    decreases |a|
  {
    if a != [] {
      assert (a + b)[0] == a[0];
      assert (a + b)[1..] == a[1..] + b;
      RunAppend(Step(s, offsetLeft, a[0]), offsetLeft, a[1..], b);
    } else {
      assert a + b == b;
    }
  }

  /**
   * Offsets do not accumulate: during a drag, any sequence of moves leaves the
   * carousel exactly where a single move to the last pointer position would.
   */
  lemma {:induction false} MovesDoNotAccumulate(s: DragState, offsetLeft: int, xs: seq<int>)
    requires s.isDragging && |xs| > 0
    ensures Run(s, offsetLeft, Moves(xs)) == Step(s, offsetLeft, MouseMove(xs[|xs| - 1]))
    decreases |xs|
  {
    var first := Step(s, offsetLeft, MouseMove(xs[0]));
    assert Moves(xs)[1..] == Moves(xs[1..]);
    if |xs| == 1 {
      assert Run(s, offsetLeft, Moves(xs)) == Run(first, offsetLeft, []);
    } else {
      MovesDoNotAccumulate(first, offsetLeft, xs[1..]);
      assert xs[1..][|xs[1..]| - 1] == xs[|xs| - 1];
    }
  }

  /**
   * A whole drag gesture: a press at `downX` followed by moves leaves the carousel
   * dragging, offset by twice the pointer's travel from the press to the last move,
   * in the opposite direction; coming back to the press position restores the offset.
   */
  lemma DragGesture(s: DragState, offsetLeft: int, downX: int, xs: seq<int>)
    requires |xs| > 0
    ensures var r := Run(s, offsetLeft, [MouseDown(downX)] + Moves(xs));
      && r.isDragging
      && r.offset == s.offset - DragGain * (xs[|xs| - 1] - downX)
      && (xs[|xs| - 1] == downX ==> r.offset == s.offset)
  {
    RunAppend(s, offsetLeft, [MouseDown(downX)], Moves(xs));
    var pressed := Step(s, offsetLeft, MouseDown(downX));
    assert Run(s, offsetLeft, [MouseDown(downX)]) == Run(pressed, offsetLeft, []);
    MovesDoNotAccumulate(pressed, offsetLeft, xs);
  }

  /**
   * A release (mouse-up or mouse-leave) after any history always ends the drag and
   * leaves the live offset and the stored origin where they were.
   */
  lemma ReleaseEndsDrag(s: DragState, offsetLeft: int, events: seq<MouseEvent>, release: MouseEvent)
    requires release == MouseUp || release == MouseLeave
    ensures var before := Run(s, offsetLeft, events);
      var after := Run(s, offsetLeft, events + [release]);
      && !after.isDragging
      && after.offset == before.offset
      && after.startX == before.startX && after.scrollLeft == before.scrollLeft
  {
    RunAppend(s, offsetLeft, events, [release]);
    var before := Run(s, offsetLeft, events);
    assert Run(before, offsetLeft, [release]) == Run(Step(before, offsetLeft, release), offsetLeft, []);
  }

  /** Leaving the container is handled exactly like releasing the button. */
  lemma LeaveActsAsUp(s: DragState, offsetLeft: int)
    ensures Step(s, offsetLeft, MouseLeave) == Step(s, offsetLeft, MouseUp)
  {
  }

  /**
   * A second press during a drag is not ignored: it replaces the origin, exactly as
   * if the first press had never happened.
   */
  lemma SecondPressOverwritesOrigin(s: DragState, offsetLeft: int, x1: int, x2: int)
    ensures var once := Step(s, offsetLeft, MouseDown(x1));
      Step(once, offsetLeft, MouseDown(x2)) == Step(s, offsetLeft, MouseDown(x2))
  {
  }

  /** The pointer's reference position is the container's left edge. */
  lemma PressRecordsOrigin(s: DragState, offsetLeft: int, pageX: int)
    ensures var r := Step(s, offsetLeft, MouseDown(pageX));
      r.isDragging && r.startX == pageX - offsetLeft && r.scrollLeft == s.offset && r.offset == s.offset
  {
  }

  /**
   * A carousel at offset 0, pressed at x = 800 and dragged to x = 700 (gain 2) scrolls
   * to 200; releasing it returns to idle and keeps 200.
   */
  lemma CarouselScenario()
    ensures var dragged := Run(Initial(0), 0, [MouseDown(800), MouseMove(700)]);
      dragged.isDragging && dragged.offset == 200
    ensures var released := Run(Initial(0), 0, [MouseDown(800), MouseMove(700), MouseUp]);
      !released.isDragging && released.offset == 200
  {
  }

  /** The container element the gallery's ref points at. */
  class ScrollContainer {
    /** The element's live horizontal scroll offset. */
    var scrollLeft: int
    /** The element's left edge on the page. */
    var offsetLeft: int

    constructor (left: int)
      ensures scrollLeft == 0 && offsetLeft == left
    {
      scrollLeft := 0;
      offsetLeft := left;
    }
  }

  /** The gallery component's drag state and its three mouse handlers. */
  class HackathonGallery {
    var isDragging: bool
    var startX: int
    var scrollLeft: int
    const container: ScrollContainer

    constructor (c: ScrollContainer)
      ensures container == c
      ensures State() == Initial(c.scrollLeft)
    {
      isDragging := false;
      startX := 0;
      scrollLeft := 0;
      container := c;
    }

    /** The component's state together with the container's live offset. */
    function State(): DragState
      reads this, container
    {
      DragState(isDragging, startX, scrollLeft, container.scrollLeft)
    }

    /** Starts a drag: records the pointer and the current offset, with no guard. */
    method HandleMouseDown(pageX: int)
      modifies this
      ensures State() == Step(old(State()), container.offsetLeft, MouseDown(pageX))
    {
      isDragging := true;
      startX := pageX - container.offsetLeft;
      scrollLeft := container.scrollLeft;
    }

    /** Ends a drag; wired to both mouse-up and mouse-leave. */
    method HandleMouseUp()
      modifies this`isDragging
      ensures State() == Step(old(State()), container.offsetLeft, MouseUp)
      ensures State() == Step(old(State()), container.offsetLeft, MouseLeave)
    {
      isDragging := false;
    }

    /**
     * Scrolls the container while dragging. `preventDefault` tells whether the
     * handler suppressed the browser's default action (text and image selection).
     */
    method HandleMouseMove(pageX: int) returns (preventDefault: bool)
      modifies container`scrollLeft
      ensures preventDefault == old(isDragging)
      ensures State() == Step(old(State()), container.offsetLeft, MouseMove(pageX))
    {
      if !isDragging {
        return false;
      }
      preventDefault := true;
      var x := pageX - container.offsetLeft;
      var walk := (x - startX) * 2;
      container.scrollLeft := scrollLeft - walk;
    }
  }
}
