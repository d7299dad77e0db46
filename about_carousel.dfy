/** The biography carousel of the "About Me" section: a slide index and an autoplay flag,
    moved by the next/previous buttons, the slide indicators and a five-second autoplay timer. */
module AboutCarousel {
  import opened Remainders

  /** The biography has five slides. */
  const SlideCount: nat := 5

  /** The slide after `i`, wrapping from the last back to the first. */
  function NextIndex(i: nat, len: nat): (r: nat)
    requires len > 0
    ensures r < len
    ensures i < len ==> r == if i == len - 1 then 0 else i + 1
  {
    (i + 1) % len
  }

  /** The slide before `i`, wrapping from the first to the last. */
  function PrevIndex(i: nat, len: nat): (r: nat)
    requires len > 0
    ensures r < len
  {
    (i - 1 + len) % len
  }

  /** From slide 0 going back lands on the last slide; from any other slide on the one before. */
  lemma PrevWraps(i: nat, len: nat)
    requires i < len
    ensures PrevIndex(i, len) == if i == 0 then len - 1 else i - 1
  {
    if i == 0 {
      ModOf(len - 1, 0, len - 1, len);
    } else {
      ModOf(i - 1 + len, 1, i - 1, len);
    }
  }

  /** Going back undoes going forward, and the other way round. */
  lemma PrevUndoesNext(i: nat, len: nat)
    requires i < len
    ensures PrevIndex(NextIndex(i, len), len) == i
    ensures NextIndex(PrevIndex(i, len), len) == i
  {
    PrevWraps(NextIndex(i, len), len);
    PrevWraps(i, len);
  }

  /** `k` presses of "next" from slide i. */
  function Forward(i: nat, k: nat, len: nat): (r: nat)
    requires len > 0
    ensures r < len || (k == 0 && r == i)
  {
    if k == 0 then i else NextIndex(Forward(i, k - 1, len), len)
  }

  /** `k` presses of "next" land on slide (i + k) mod len. */
  lemma {:induction false} ForwardIsModular(i: nat, k: nat, len: nat)
    requires i < len
    ensures Forward(i, k, len) == (i + k) % len
  {
    if k > 0 {
      ForwardIsModular(i, k - 1, len);
      var j := (i + k - 1) % len;
      assert NextIndex(j, len) == (j + 1) % len;
      ModSucc(i + k - 1, len);
    }
  }

  lemma ModSucc(a: nat, len: nat)
    requires len > 0
    ensures (a % len + 1) % len == (a + 1) % len
  {
    var q, r := a / len, a % len;
    assert a == q * len + r;
    if r + 1 < len {
      ModOf(a + 1, q, r + 1, len);
      ModOf(r + 1, 0, r + 1, len);
    } else {
      assert a + 1 == (q + 1) * len + 0;
      ModOf(a + 1, q + 1, 0, len);
      ModOf(r + 1, 1, 0, len);
    }
  }

  /** A full round of `len` presses of "next" comes back to the starting slide. */
  lemma FullRound(i: nat, len: nat)
    requires i < len
    ensures Forward(i, len, len) == i
  {
    ForwardIsModular(i, len, len);
    ModOf(i + len, 1, i, len);
  }

  /** The state the section keeps. */
  datatype SlideState = SlideState(current: nat, autoPlaying: bool)

  /** The section starts on the first slide with autoplay on. */
  const Initial: SlideState := SlideState(0, true)

  /** What can happen to the carousel: the two arrow buttons, a click on indicator `index`,
      and a firing of the autoplay timer. */
  datatype Control = Next | Prev | GoTo(index: nat) | Tick

  predicate Manual(c: Control)
  {
    !c.Tick?
  }

  /** The effect of one control. Every manual control stops autoplay; the timer only exists,
      and so only advances the slide, while autoplay is on. */
  function Step(s: SlideState, c: Control, len: nat): SlideState
    requires len > 0
  {
    match c
    case Next => SlideState(NextIndex(s.current, len), false)
    case Prev => SlideState(PrevIndex(s.current, len), false)
    case GoTo(k) => SlideState(k, false)
    case Tick => if s.autoPlaying then s.(current := NextIndex(s.current, len)) else s
  }

  function Run(s: SlideState, cs: seq<Control>, len: nat): SlideState
    requires len > 0
    decreases cs
  {
    if cs == [] then s else Run(Step(s, cs[0], len), cs[1..], len)
  }

  /** An indicator click stays among the existing slides. */
  predicate InRange(c: Control, len: nat)
  {
    c.GoTo? ==> c.index < len
  }

  /** The slide index stays in [0, len) whatever controls are used. */
  lemma {:induction false} RunStaysInRange(s: SlideState, cs: seq<Control>, len: nat)
    requires len > 0 && s.current < len
    requires forall k :: 0 <= k < |cs| ==> InRange(cs[k], len)
    ensures Run(s, cs, len).current < len
    decreases cs
  {
    if cs != [] {
      assert InRange(cs[0], len);
      RunStaysInRange(Step(s, cs[0], len), cs[1..], len);
    }
  }

  /** Nothing turns autoplay back on: it is on at the end only if it was on at the start and
      every control was a timer tick. So after any manual navigation it stays off. */
  lemma {:induction false} AutoplayNeverResumes(s: SlideState, cs: seq<Control>, len: nat)
    requires len > 0
    ensures Run(s, cs, len).autoPlaying <==> s.autoPlaying && forall k :: 0 <= k < |cs| ==> !Manual(cs[k])
    decreases cs
  {
    if cs != [] {
      AutoplayNeverResumes(Step(s, cs[0], len), cs[1..], len);
      assert forall k :: 1 <= k < |cs| ==> cs[k] == cs[1..][k - 1];
    }
  }

  /** `k` timer ticks in a row. */
  function Ticks(k: nat): (cs: seq<Control>)
    ensures |cs| == k && forall j :: 0 <= j < k ==> cs[j] == Tick
  {
    seq(k, _ => Tick)
  }

  /** While autoplay is on, k ticks advance the slide exactly as k presses of "next" would,
      and autoplay stays on. With autoplay off, ticks change nothing. */
  lemma {:induction false} TicksAdvance(s: SlideState, k: nat, len: nat)
    requires len > 0
    ensures s.autoPlaying ==> Run(s, Ticks(k), len) == SlideState(Forward(s.current, k, len), true)
    ensures !s.autoPlaying ==> Run(s, Ticks(k), len) == s
    decreases k
  {
    if k > 0 {
      assert Ticks(k)[1..] == Ticks(k - 1);
      var t := Step(s, Tick, len);
      TicksAdvance(t, k - 1, len);
      if s.autoPlaying {
        ForwardShift(s.current, k - 1, len);
      }
    }
  }

  lemma {:induction false} ForwardShift(i: nat, k: nat, len: nat)
    requires len > 0
    ensures Forward(NextIndex(i, len), k, len) == Forward(i, k + 1, len)
  {
    if k > 0 {
      ForwardShift(i, k - 1, len);
    }
  }

  /** The width of the progress bar, in percent. */
  function Progress(i: nat, len: nat): real
    requires len > 0
  {
    (i + 1) as real / len as real * 100.0
  }

  /** The bar is never empty, never over full, full on the last slide, and grows with the
      slide number. */
  lemma ProgressBounds(i: nat, len: nat)
    requires i < len
    ensures 0.0 < Progress(i, len) <= 100.0
    ensures Progress(len - 1, len) == 100.0
    ensures forall j: nat :: i < j < len ==> Progress(i, len) < Progress(j, len)
  {
    var l := len as real;
    assert l / l == 1.0;
    forall j: nat | i < j < len
      ensures Progress(i, len) < Progress(j, len)
    {
      ProgressGrows(i, j, len);
    }
    if i + 1 < len {
      ProgressGrows(i, len - 1, len);
    }
  }

  /** A later slide has a wider bar, which is positive and at most full. */
  lemma ProgressGrows(i: nat, j: nat, len: nat)
    requires i < j < len
    ensures 0.0 < Progress(i, len) < Progress(j, len) <= 100.0
  {
    var l := len as real;
    DivLess((i + 1) as real, (j + 1) as real, l);
    DivLess((j + 1) as real, l + 1.0, l);
    assert (l + 1.0) / l == 1.0 + 1.0 / l;
    assert (j + 1) as real / l <= 1.0;
  }

  lemma DivLess(a: real, b: real, l: real)
    requires a < b && l > 0.0
    ensures a / l < b / l
  {
    var d := (b - a) / l;
    assert d * l == b - a;
    assert b / l - a / l == d;
  }

  /** With five slides the bar reads 20% on the first slide and 100% on the last. */
  lemma ProgressScenario()
    ensures Progress(0, SlideCount) == 20.0
    ensures Progress(SlideCount - 1, SlideCount) == 100.0
  {
  }

  /** The highlighted state of each slide indicator. */
  function Indicators(current: nat, len: nat): (r: seq<bool>)
    ensures |r| == len
    ensures forall k :: 0 <= k < len ==> (r[k] <==> k == current)
  {
    seq(len, k => k == current)
  }

  function CountTrue(bs: seq<bool>): nat
  {
    if bs == [] then 0 else (if bs[0] then 1 else 0) + CountTrue(bs[1..])
  }

  lemma {:induction false} CountSingle(bs: seq<bool>, c: nat)
    requires c < |bs|
    requires forall k :: 0 <= k < |bs| ==> (bs[k] <==> k == c)
    ensures CountTrue(bs) == 1
  {
    if c == 0 {
      NoneTrue(bs[1..]);
    } else {
      CountSingle(bs[1..], c - 1);
    }
  }

  lemma {:induction false} NoneTrue(bs: seq<bool>)
    requires forall k :: 0 <= k < |bs| ==> !bs[k]
    ensures CountTrue(bs) == 0
  {
    if bs != [] {
      NoneTrue(bs[1..]);
    }
  }

  /** Exactly one indicator is highlighted: the one of the current slide. */
  lemma ExactlyOneIndicator(current: nat, len: nat)
    requires current < len
    ensures CountTrue(Indicators(current, len)) == 1
  {
    CountSingle(Indicators(current, len), current);
  }

  /** The component's two state cells. */
  class Carousel {
    var currentSlide: nat
    var isAutoPlaying: bool

    function State(): SlideState
      reads this
    {
      SlideState(currentSlide, isAutoPlaying)
    }

    constructor ()
      ensures State() == Initial
    {
      currentSlide, isAutoPlaying := 0, true;
    }

    /** `nextSlide`. */
    method NextSlide()
      modifies this
      ensures State() == Step(old(State()), Next, SlideCount)
    {
      currentSlide := NextIndex(currentSlide, SlideCount);
      isAutoPlaying := false;
    }

    /** `prevSlide`. */
    method PrevSlide()
      modifies this
      ensures State() == Step(old(State()), Prev, SlideCount)
    {
      currentSlide := PrevIndex(currentSlide, SlideCount);
      isAutoPlaying := false;
    }

    /** `goToSlide`, called by indicator `index`. */
    method GoToSlide(index: nat)
      modifies this
      ensures State() == Step(old(State()), GoTo(index), SlideCount)
    {
      currentSlide := index;
      isAutoPlaying := false;
    }

    /** One firing of the autoplay interval; the interval is installed only while autoplay is on. */
    method AutoplayTick()
      modifies this
      ensures State() == Step(old(State()), Tick, SlideCount)
    {
      if isAutoPlaying {
        currentSlide := NextIndex(currentSlide, SlideCount);
      }
    }
  }
}
