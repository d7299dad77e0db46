/** The typewriter effect of the hero section: a timer fires every 100 ms; each firing shows
    one more character of the title, starting from none, and once the whole title has been
    shown the timer clears itself. */
module HeroTypewriter {

  /** The title being typed. */
  const FullText: string := "AI Engineer | Web Developer | DL Enthusiast"

  /** The interval callback's counter, the shown text, and whether the interval is still set. */
  datatype Typing = Typing(index: nat, displayText: string, running: bool)

  /** Before the first firing: counter 0, nothing shown, timer set. */
  const Start: Typing := Typing(0, "", true)

  /** Whether a firing in state `s` sets the shown text. */
  predicate Updates(s: Typing, text: string)
  {
    s.running && s.index <= |text|
  }

  /** One firing of the interval. While the counter is at most the title's length it shows
      that many characters and counts up; past the end it clears the timer. A cleared timer
      no longer fires, so nothing changes any more. */
  function TickState(s: Typing, text: string): Typing
  {
    if !s.running then s
    else if s.index <= |text| then Typing(s.index + 1, text[..s.index], true)
    else s.(running := false)
  }

  /** `k` firings from `s`. */
  function Ticks(s: Typing, k: nat, text: string): Typing
  {
    if k == 0 then s else TickState(Ticks(s, k - 1, text), text)
  }

  predicate IsPrefix(d: string, text: string)
  {
    |d| <= |text| && text[..|d|] == d
  }

  /** The states the effect can be in: typing, with the counter one ahead of the shown
      characters (or at 0 before the first firing), or finished with the whole title shown. */
  predicate Reachable(s: Typing, text: string)
  {
    if s.running then
      s.index <= |text| + 1 && s.displayText == (if s.index == 0 then "" else text[..s.index - 1])
    else
      s.index == |text| + 1 && s.displayText == text
  }

  lemma StartReachable(text: string)
    ensures Reachable(Start, text)
  {
  }

  /** A firing keeps the effect among its reachable states. */
  lemma TickPreservesReachable(s: Typing, text: string)
    requires Reachable(s, text)
    ensures Reachable(TickState(s, text), text)
  {
    if s.running && s.index > |text| {
      assert text[..s.index - 1] == text;
    }
  }

  /** In every reachable state the shown text is a prefix of the title. */
  lemma ReachableShowsPrefix(s: Typing, text: string)
    requires Reachable(s, text)
    ensures IsPrefix(s.displayText, text)
  {
    if s.running && s.index > 0 {
      assert text[..s.index - 1][..s.index - 1] == text[..s.index - 1];
    }
  }

  /** After `k` firings: before the first, nothing; after firing k, for 1 <= k <= len + 1, the
      first k - 1 characters; after firing len + 2 the timer is cleared and the whole title
      stays shown. */
  lemma {:induction false} TicksFromStart(k: nat, text: string)
    ensures var s := Ticks(Start, k, text);
      && (k == 0 ==> s == Start)
      && (1 <= k <= |text| + 1 ==> s == Typing(k, text[..k - 1], true))
      && (k > |text| + 1 ==> s == Typing(|text| + 1, text, false))
  {
    if k > 0 {
      TicksFromStart(k - 1, text);
      if k == |text| + 2 {
        assert text[..|text|] == text;
      }
    }
  }

  /** The shown text stays a prefix of the title at every point. */
  lemma AlwaysPrefix(k: nat, text: string)
    ensures IsPrefix(Ticks(Start, k, text).displayText, text)
  {
    TicksFromStart(k, text);
    if 1 <= k <= |text| + 1 {
      assert text[..k - 1][..k - 1] == text[..k - 1];
    } else if k > |text| + 1 {
      assert text[..|text|] == text;
    }
  }

  /** The first firing shows the empty string. */
  lemma FirstTickShowsNothing(text: string)
    ensures Ticks(Start, 1, text).displayText == ""
  {
    TicksFromStart(1, text);
  }

  /** Each firing after the first adds exactly the next character, until the title is
      complete. */
  lemma OneCharacterPerTick(k: nat, text: string)
    requires 2 <= k <= |text| + 1
    ensures Ticks(Start, k, text).displayText == Ticks(Start, k - 1, text).displayText + [text[k - 2]]
  {
    TicksFromStart(k, text);
    TicksFromStart(k - 1, text);
    assert text[..k - 1] == text[..k - 2] + [text[k - 2]];
  }

  /** How many of the first `k` firings from `s` set the shown text. */
  function UpdateCount(s: Typing, k: nat, text: string): nat
  {
    if k == 0 then 0 else UpdateCount(s, k - 1, text) + (if Updates(Ticks(s, k - 1, text), text) then 1 else 0)
  }

  /** The text is set exactly len + 1 times however long the page stays open, and from then on
      the whole title is shown and nothing changes. */
  lemma {:induction false} ExactlyLenPlusOneUpdates(k: nat, text: string)
    ensures UpdateCount(Start, k, text) == if k <= |text| + 1 then k else |text| + 1
    ensures k >= |text| + 1 ==> Ticks(Start, k, text).displayText == text
    ensures k >= |text| + 2 ==> TickState(Ticks(Start, k, text), text) == Ticks(Start, k, text)
  {
    TicksFromStart(k, text);
    if k > 0 {
      ExactlyLenPlusOneUpdates(k - 1, text);
      TicksFromStart(k - 1, text);
    }
    if k == |text| + 1 {
      assert text[..|text|] == text;
    }
  }

  /** The title has 43 characters, so it is complete after the 44th firing. */
  lemma TitleScenario()
    ensures |FullText| == 43
    ensures Ticks(Start, 44, FullText).displayText == FullText
    ensures Ticks(Start, 12, FullText).displayText == "AI Engineer"
  {
    ExactlyLenPlusOneUpdates(44, FullText);
    TicksFromStart(12, FullText);
  }

  /** The hero section's typing state: the closure's counter, the state cell and the timer. */
  class Typewriter {
    var index: nat
    var displayText: string
    var running: bool

    function State(): Typing
      reads this
    {
      Typing(index, displayText, running)
    }

    /** Mounting the section: counter 0, empty text, timer set. */
    constructor ()
      ensures State() == Start
    {
      index, displayText, running := 0, "", true;
    }

    /** One firing of the 100 ms interval. */
    method Tick()
      requires running
      modifies this
      ensures State() == TickState(old(State()), FullText)
    {
      if index <= |FullText| {
        displayText := FullText[..index];
        index := index + 1;
      } else {
        running := false;
      }
    }
  }
}
