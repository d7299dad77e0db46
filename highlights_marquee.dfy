/** The professional-highlights marquee: a row of cards, the highlight list three times over,
    that scrolls one pixel per animation frame and jumps back to the start at half its
    scroll width, pauses while hovered, and can be dragged with the mouse or a finger.

    Scroll positions and pointer coordinates are whole pixels. The browser's clamping of a
    scroll position to the scrollable range is not modelled: a position here is the value the
    code assigns. */
module HighlightsMarquee {
  import opened Numerals
  import opened Remainders

  // ---------------------------------------------------------------------------------------
  // The cards

  /** A highlight card; its image and icon are presentation only. */
  datatype Highlight = Highlight(id: nat, description: string)

  const Highlights: seq<Highlight> := [
    Highlight(1, "Successfull College Placement At Accenture"),
    Highlight(2, "Dean's List for Academic Excellence at Manipal University Jaipur"),
    Highlight(3, "Recieved the LeetCode yearly 2025 badge"),
    Highlight(4, "Successfull College Placement At Infosys"),
    Highlight(5, "Completed Internship At University Living as a Full Stack Developer"),
    Highlight(6, "Completed Internship At Inlighn Tech as an AIML intern"),
    Highlight(7, "Convened Navonmesh 2024, managing 100+ team members and 500+ participants")
  ]

  /** The list the row renders: the highlights three times in a row. */
  function Tripled(hs: seq<Highlight>): seq<Highlight>
  {
    hs + hs + hs
  }

  /** The rendered row is three times as long, and its card i is highlight i mod n. */
  lemma TripledShape(hs: seq<Highlight>)
    ensures |Tripled(hs)| == 3 * |hs|
    ensures forall i :: 0 <= i < |Tripled(hs)| ==> Tripled(hs)[i] == hs[i % |hs|]
  {
    var n := |hs|;
    forall i | 0 <= i < 3 * n
      ensures Tripled(hs)[i] == hs[i % n]
    {
      if i < n {
        ModOf(i, 0, i - 0 * n, n);
      } else if i < 2 * n {
        ModOf(i, 1, i - 1 * n, n);
      } else {
        ModOf(i, 2, i - 2 * n, n);
      }
    }
  }

  /** The React key of card `index`. */
  function Key(h: Highlight, index: nat): string
  {
    Decimal(h.id) + "-" + Decimal(index)
  }

  /** The length of the run of digits a string starts with. */
  function LeadingDigits(s: string): (n: nat)
    ensures n <= |s|
  {
    if s == [] || !IsDigit(s[0]) then 0 else 1 + LeadingDigits(s[1..])
  }

  lemma {:induction false} LeadingDigitsOf(d: string, rest: string)
    requires forall k :: 0 <= k < |d| ==> IsDigit(d[k])
    requires rest != [] && !IsDigit(rest[0])
    ensures LeadingDigits(d + rest) == |d|
  {
    if d != [] {
      assert (d + rest)[1..] == d[1..] + rest;
      LeadingDigitsOf(d[1..], rest);
    }
  }

  /** A key determines the id and the index it was made from. */
  lemma KeyDeterminesParts(h: Highlight, i: nat, g: Highlight, j: nat)
    requires Key(h, i) == Key(g, j)
    ensures h.id == g.id && i == j
  {
    var a, b, c, d := Decimal(h.id), Decimal(i), Decimal(g.id), Decimal(j);
    assert Key(h, i) == a + ("-" + b);
    assert Key(g, j) == c + ("-" + d);
    LeadingDigitsOf(a, "-" + b);
    LeadingDigitsOf(c, "-" + d);
    assert |a| == |c|;
    assert a == Key(h, i)[..|a|] == c;
    assert b == Key(h, i)[|a| + 1..] == d;
    DecimalInjective(h.id, g.id);
    DecimalInjective(i, j);
  }

  /** The keys of the rendered cards are pairwise distinct, though every highlight appears
      three times. */
  lemma KeysDistinct(hs: seq<Highlight>)
    ensures var r := Tripled(hs);
      forall i, j :: 0 <= i < j < |r| ==> Key(r[i], i) != Key(r[j], j)
  {
    var r := Tripled(hs);
    forall i, j | 0 <= i < j < |r|
      ensures Key(r[i], i) != Key(r[j], j)
    {
      if Key(r[i], i) == Key(r[j], j) {
        KeyDeterminesParts(r[i], i, r[j], j);
      }
    }
  }

  /** The seven highlights give 21 cards. */
  lemma RowScenario()
    ensures |Tripled(Highlights)| == 21
    ensures Tripled(Highlights)[7] == Highlights[0]
    ensures Tripled(Highlights)[20] == Highlights[6]
  {
  }

  // ---------------------------------------------------------------------------------------
  // Automatic scrolling

  /** One animation frame of `scroll`: back to 0 once the position reaches half the scroll
      width, otherwise one pixel further. `2 * pos >= scrollWidth` is the source's
      `scrollLeft >= scrollWidth / 2` on whole numbers. */
  function AutoScrollStep(pos: int, scrollWidth: nat): (r: int)
    ensures r == 0 <==> 2 * pos >= scrollWidth || pos == -1
    ensures 2 * pos < scrollWidth ==> r == pos + 1
  {
    if 2 * pos >= scrollWidth then 0 else pos + 1
  }

  /** The positions the automatic scrolling keeps to: from 0 up to half the scroll width plus
      one pixel, exclusive. */
  predicate InBand(pos: int, scrollWidth: nat)
  {
    0 <= pos && 2 * pos < scrollWidth + 2
  }

  /** From a position in [0, scrollWidth / 2] the steps stay in the band. */
  lemma StepStaysInBand(pos: int, scrollWidth: nat)
    requires InBand(pos, scrollWidth)
    ensures InBand(AutoScrollStep(pos, scrollWidth), scrollWidth)
  {
  }

  /** `k` frames of automatic scrolling. */
  function AutoScroll(pos: int, k: nat, scrollWidth: nat): int
  {
    if k == 0 then pos else AutoScrollStep(AutoScroll(pos, k - 1, scrollWidth), scrollWidth)
  }

  lemma {:induction false} AutoScrollStaysInBand(pos: int, k: nat, scrollWidth: nat)
    requires InBand(pos, scrollWidth)
    ensures InBand(AutoScroll(pos, k, scrollWidth), scrollWidth)
  {
    if k > 0 {
      AutoScrollStaysInBand(pos, k - 1, scrollWidth);
      StepStaysInBand(AutoScroll(pos, k - 1, scrollWidth), scrollWidth);
    }
  }

  /** From 0 the row climbs one pixel per frame up to (scrollWidth + 1) / 2, the first whole
      position at or past the half. */
  lemma {:induction false} AutoScrollClimbs(k: nat, scrollWidth: nat)
    requires k <= (scrollWidth + 1) / 2
    ensures AutoScroll(0, k, scrollWidth) == k
  {
    if k > 0 {
      AutoScrollClimbs(k - 1, scrollWidth);
    }
  }

  /** The frame after the top brings the row back to 0: from 0 the scrolling is periodic with
      period (scrollWidth + 1) / 2 + 1. */
  lemma AutoScrollCycle(k: nat, scrollWidth: nat)
    ensures AutoScroll(0, (scrollWidth + 1) / 2 + 1, scrollWidth) == 0
    ensures AutoScroll(0, k + (scrollWidth + 1) / 2 + 1, scrollWidth) == AutoScroll(0, k, scrollWidth)
  {
    var top := (scrollWidth + 1) / 2;
    AutoScrollClimbs(top, scrollWidth);
    AutoScrollShift(0, top + 1, k, scrollWidth);
  }

  /** Running `k` more frames after `j` frames is running `j + k` frames. */
  lemma {:induction false} AutoScrollShift(pos: int, j: nat, k: nat, scrollWidth: nat)
    ensures AutoScroll(pos, j + k, scrollWidth) == AutoScroll(AutoScroll(pos, j, scrollWidth), k, scrollWidth)
  {
    if k > 0 {
      AutoScrollShift(pos, j, k - 1, scrollWidth);
    }
  }

  // ---------------------------------------------------------------------------------------
  // Dragging

  /** Where a drag puts the row: the position saved when the drag began, moved twice as far
      as the pointer, in the opposite direction. */
  function DragTarget(saved: int, startX: int, x: int): (r: int)
    ensures x == startX ==> r == saved
    ensures x > startX ==> r < saved
    ensures x < startX ==> r > saved
    ensures saved - r == 2 * (x - startX)
  {
    saved - (x - startX) * 2
  }

  /** The row's scroll position, its width, and the hover and drag state. `scrollLeft` is the
      state cell holding the position when the drag began; `position` is the container's own
      scroll position. Pointer coordinates are relative to the container. */
  datatype Marquee = Marquee(position: int, scrollWidth: nat, isPaused: bool, isDragging: bool, startX: int, scrollLeft: int)

  /** Mouse and touch events on the row, and animation frames. */
  datatype Event =
    | MouseDown(x: int) | MouseMove(x: int) | MouseUp
    | TouchStart(x: int) | TouchMove(x: int) | TouchEnd
    | MouseEnter | MouseLeave
    | Frame

  /** The effect of one event. An animation frame is only scheduled while the row is neither
      hovered nor dragged. */
  function Step(m: Marquee, e: Event): Marquee
  {
    match e
    case MouseDown(x) => m.(isDragging := true, startX := x, scrollLeft := m.position)
    case TouchStart(x) => m.(isDragging := true, startX := x, scrollLeft := m.position)
    case MouseMove(x) => if m.isDragging then m.(position := DragTarget(m.scrollLeft, m.startX, x)) else m
    case TouchMove(x) => if m.isDragging then m.(position := DragTarget(m.scrollLeft, m.startX, x)) else m
    case MouseUp => m.(isDragging := false)
    case TouchEnd => m.(isDragging := false)
    case MouseEnter => m.(isPaused := true)
    case MouseLeave => m.(isPaused := false, isDragging := false)
    case Frame => if m.isPaused || m.isDragging then m else m.(position := AutoScrollStep(m.position, m.scrollWidth))
  }

  predicate IsMove(e: Event)
  {
    e.MouseMove? || e.TouchMove?
  }

  /** Automatic scrolling runs only when neither paused nor dragging, and then changes nothing
      but the position. */
  lemma FrameGated(m: Marquee)
    ensures (m.isPaused || m.isDragging) ==> Step(m, Frame) == m
    ensures !(m.isPaused || m.isDragging) ==> Step(m, Frame) == m.(position := AutoScrollStep(m.position, m.scrollWidth))
  {
  }

  /** A move while not dragging does nothing; a move while dragging sets only the position. */
  lemma MoveEffect(m: Marquee, e: Event)
    requires IsMove(e)
    ensures !m.isDragging ==> Step(m, e) == m
    ensures m.isDragging ==> Step(m, e) == m.(position := DragTarget(m.scrollLeft, m.startX, e.x))
  {
  }

  /** Mouse down and touch start begin a drag at the pointer and save the current position,
      without moving the row or changing the pause. */
  lemma BeginDragEffect(m: Marquee, x: int)
    ensures Step(m, MouseDown(x)) == Step(m, TouchStart(x))
    ensures var n := Step(m, MouseDown(x));
      n.isDragging && n.startX == x && n.scrollLeft == m.position
      && n.position == m.position && n.isPaused == m.isPaused
  {
  }

  /** Leaving the row ends both the pause and the drag; mouse up and touch end end the drag
      only. */
  lemma EndEffects(m: Marquee)
    ensures var n := Step(m, MouseLeave); !n.isPaused && !n.isDragging && n.position == m.position
    ensures Step(m, MouseUp) == Step(m, TouchEnd) == m.(isDragging := false)
    ensures Step(m, MouseUp).isPaused == m.isPaused
  {
  }

  /** A press at `x0` and a move to `x1` move the row by twice the pointer's travel, the other
      way; moving back to `x0` restores the position the drag started from. */
  lemma DragScenario(m: Marquee, x0: int, x1: int)
    ensures Step(Step(m, MouseDown(x0)), MouseMove(x1)).position == m.position - 2 * (x1 - x0)
    ensures Step(Step(Step(m, MouseDown(x0)), MouseMove(x1)), MouseMove(x0)).position == m.position
  {
  }

  /** The row's state, with the container's scroll position and width. */
  class Row {
    var position: int
    var scrollWidth: nat
    var isPaused: bool
    var isDragging: bool
    var startX: int
    var scrollLeft: int

    function State(): Marquee
      reads this
    {
      Marquee(position, scrollWidth, isPaused, isDragging, startX, scrollLeft)
    }

    /** Mounting: not hovered, not dragged, all positions 0. */
    constructor (width: nat)
      ensures State() == Marquee(0, width, false, false, 0, 0)
    {
      position, scrollWidth := 0, width;
      isPaused, isDragging := false, false;
      startX, scrollLeft := 0, 0;
    }

    /** One call of the `scroll` animation-frame callback. */
    method AnimationFrame()
      modifies this
      ensures State() == Step(old(State()), Frame)
    {
      if !isPaused && !isDragging {
        if 2 * position >= scrollWidth {
          position := 0;
        } else {
          position := position + 1;
        }
      }
    }

    /** `handleMouseDown` and `handleTouchStart`. */
    method BeginDrag(x: int)
      modifies this
      ensures State() == Step(old(State()), MouseDown(x))
    {
      isDragging := true;
      startX := x;
      scrollLeft := position;
    }

    /** `handleMouseMove` and `handleTouchMove`. */
    method Drag(x: int)
      modifies this
      ensures State() == Step(old(State()), MouseMove(x))
    {
      if !isDragging {
        return;
      }
      var walk := (x - startX) * 2;
      position := scrollLeft - walk;
    }

    /** `handleMouseUp` and `handleTouchEnd`. */
    method EndDrag()
      modifies this
      ensures State() == Step(old(State()), MouseUp)
    {
      isDragging := false;
    }

    method MouseEnter()
      modifies this
      ensures State() == Step(old(State()), Event.MouseEnter)
    {
      isPaused := true;
    }

    method MouseLeave()
      modifies this
      ensures State() == Step(old(State()), Event.MouseLeave)
    {
      isPaused := false;
      isDragging := false;
    }
  }
}
