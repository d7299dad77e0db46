# Portfolio site interaction core, in Dafny

This project models the behaviour behind the interactive parts of a single-page portfolio
site built with React, and proves properties of that model. It covers seven pieces:

- **The particle background**. A particle set is sized to the drawing surface and generated from
  random draws. Every animation frame moves each particle, bounces it off the edges, nudges it
  toward the pointer, and examines every unordered pair of particles for a connecting line.
  `ParticleField.Field` is a class over an `array<Particle>`. Its methods are proved against
  the pure functions `Generation`, `Stepped` and `FrameChecks`.
- **The "About Me" carousel**. It has five slides, next/previous buttons, slide indicators, an
  autoplay timer that any manual control switches off for good, and a progress bar.
  `AboutCarousel.Carousel` holds the two state cells. Each handler is tied to the pure
  transition function `Step`.
- **The contact form**. Field edits; a submission that checks that all fields are filled, then
  checks the address against `^[^\s@]+@[^\s@]+\.[^\s@]+$`, then sends through the e-mail
  helper, resets the form on delivery and reports the outcome. `ContactForm.Contact.HandleSubmit`
  is proved equal to the pure function `Submit`. The address test is proved equivalent to the
  pattern read as a grammar.
- **The e-mail helper**. It checks the configuration when the module loads, and `sendEmail`
  builds the template parameters, either resolving with `success: true` or throwing a detailed
  error.
- **The hero typewriter**. A 100 ms interval shows one more character of the title per firing and
  then clears itself.
- **The professional-highlights marquee**. It automatically scrolls with a wrap at half the
  scroll width, pauses on hover, can be dragged with the mouse or a finger, and renders a list
  made of the highlights three times over with keys `id-index`.
- **The skills section**. A per-category filter over a constant list, the partition of that
  list into the four cards, and the "n skill(s)" badge.

Modules:
- one module per source file: `ParticleField`, `AboutCarousel`, `ContactForm`, `EmailJs`,
  `HeroTypewriter`, `HighlightsMarquee`, `Skills`;
- `Wrappers`, which holds `Option` and `Result`;
- `Numerals`, the decimal rendering JavaScript template literals use for whole numbers below 10^21 (from there on JavaScript prints exponent form);
- `Remainders`, the uniqueness of whole-number division with remainder, used by the slide index and the marquee's card positions.

Inputs that stand for things the model cannot see:
- **`Math.random`**: a stream `random: nat -> real` of draws in [0, 1). Particle i takes draws
  6i to 6i+5, in the order the source calls `Math.random`.
- **The pointer force** (`Pull`) and **the pair distance** (`Metric`): functions passed in,
  because the source computes them with a square root and floating-point division.
- **The delivery service's answer** (`Delivery`): delivered with a response, or rejected with an
  error carrying message, text and status.
- **The three environment variables**: optional strings.
- **Timer firings, animation frames and DOM events**: explicit method calls.

Notes on how the model reads the code:
- From x = 5 at vx = -0.3 the code gives 4.7 after one frame and 4.4 after the next
  (`x += vx` at particle-background.tsx:54); a first bounce off the left edge needs x < 0.3
  before the frame (`DriftScenario`, `BounceScenario`).
- The pull divides by the pointer distance with no guard for 0 (particle-background.tsx:66-69).
  The pull is the input `Pull`, so the model fixes no reading of distance 0.

## Model

| member | source | states |
|---|---|---|
| ParticleField.ParticleCount | components/particle-background.tsx:25 | the count n is floor(W·H / 15000): n·15000 ≤ W·H < (n+1)·15000 |
| ParticleField.Spawn | components/particle-background.tsx:29-37 | particle i takes draws 6i to 6i+5 in the source's call order and maps them as the source does; its ranges are stated by SpawnRanges |
| ParticleField.Generation | components/particle-background.tsx:25-39 | the particle set for a surface: Spawn(0), ..., Spawn(count-1); shape and ranges are stated by GenerationShape and GenerationRanges |
| ParticleField.GenerationShape | components/particle-background.tsx:26-39 | a generation has ParticleCount(W, H) particles and particle i has id i |
| ParticleField.SpawnRanges | components/particle-background.tsx:29-37 | with draws in [0,1) and a non-empty surface, a new particle has x in [0,W), y in [0,H), vx and vy in [-0.25,0.25), size in [1,3), opacity in [0.2,0.7) |
| ParticleField.GenerationRanges | components/particle-background.tsx:25-38 | every particle of a generation satisfies those ranges (a non-empty generation forces W, H > 0) |
| ParticleField.SurfaceScenario | components/particle-background.tsx:25 | an 800×600 surface gets 32 particles and a 1920×1080 one gets 138 |
| ParticleField.Integrate | components/particle-background.tsx:54-55 | the position moves by one frame's velocity |
| ParticleField.Reflect | components/particle-background.tsx:58-59 | each velocity component is negated when the position is off the surface on that axis; stated with the pull by AdvanceEffect and ReflectKeepsPosition |
| ParticleField.Advance | components/particle-background.tsx:54-70 | one particle's frame: Integrate, then Reflect, then add the pull measured at the new position; stated by AdvanceEffect |
| ParticleField.AdvanceEffect | components/particle-background.tsx:54-70 | a frame sets x := x+vx and y := y+vy; vx is negated exactly when the new x is < 0 or > W, and likewise y; then the pull is added; id, size and opacity are kept |
| ParticleField.ReflectKeepsPosition | components/particle-background.tsx:58-59 | the bounce changes only velocities, never the position |
| ParticleField.ReflectionTurnsInward | components/particle-background.tsx:54-59 | with no pull, a particle that starts on the surface and is carried off it past the left, right, top or bottom edge gets a velocity pointing back on along that axis; on an axis where it stays on it keeps its velocity |
| ParticleField.OvershootLastsOneFrame | components/particle-background.tsx:54-59 | with no pull, an overshoot past any edge, on the x or the y axis, is undone on that axis on the next frame, with that velocity component reversed |
| ParticleField.DriftScenario | components/particle-background.tsx:54-58 | from x = 5 with vx = -0.3: 4.7 after one frame, 4.4 after two, no bounce |
| ParticleField.BounceScenario | components/particle-background.tsx:54-58 | from x = 0.2 with vx = -0.3: -0.1 with vx flipped to 0.3, then back at 0.2 |
| ParticleField.LinkAlpha | components/particle-background.tsx:86-90 | a line is drawn iff d < 80; its alpha is in (0, 0.1] for d ≥ 0 and is 0.1 at d = 0 |
| ParticleField.LinkAlphaDecreasing | components/particle-background.tsx:90 | the line alpha strictly decreases with the distance |
| ParticleField.Examine | components/particle-background.tsx:82-90 | the check of one pair: the two ids and the link opacity for their distance (LinkAlpha) |
| ParticleField.RowChecks | components/particle-background.tsx:79-94 | the checks of row i over partners 0..j-1, kept when the partner's id is larger; stated by RowChecksMembers and RowChecksPairs |
| ParticleField.Snapshot | components/particle-background.tsx:52-55 | the array in the middle of a frame: particles before `done` advanced, the rest as they were; its ids are stated by SnapshotIds |
| ParticleField.Stepped | components/particle-background.tsx:52-70 | the array after a frame: every particle advanced; what it keeps is stated by SteppedKeepsAttributes |
| ParticleField.FrameChecks | components/particle-background.tsx:52-95 | the checks of the first m rows, row i taken on the snapshot after particle i moved; stated by FrameChecksPairs and FrameExaminesEachPairOnce |
| ParticleField.SteppedKeepsAttributes | components/particle-background.tsx:52-70 | after a frame each particle keeps its id, radius and opacity |
| ParticleField.RowChecksMembers | components/particle-background.tsx:79-80 | a row examines particle j exactly when ps[i].id < ps[j].id |
| ParticleField.PairsAppend | components/particle-background.tsx:79-95 | the examined pairs of two check lists concatenate |
| ParticleField.RowFacts | components/particle-background.tsx:79-80 | the pairs of row i are (i, i+1), …, (i, n-1) |
| ParticleField.PairsBelowLength | components/particle-background.tsx:52-95 | the first m rows examine m(2n-m-1)/2 pairs |
| ParticleField.AllPairsCount | components/particle-background.tsx:52-95 | a frame examines n(n-1)/2 pairs |
| ParticleField.PairsBelowMembers | components/particle-background.tsx:52-95 | (a,b) is among the first m rows' pairs iff a < m and a < b < n |
| ParticleField.AllPairsMembers | components/particle-background.tsx:79-80 | (a,b) is examined in a frame iff a < b < n |
| ParticleField.PairsBelowIncreasing | components/particle-background.tsx:52-95 | the pairs are examined in strictly increasing lexicographic order |
| ParticleField.AllPairsDistinct | components/particle-background.tsx:80 | no pair is examined twice in a frame |
| ParticleField.RowChecksPairs | components/particle-background.tsx:79-80 | with ids equal to indices, row i examines exactly the pairs (i, j) with j > i |
| ParticleField.SnapshotIds | components/particle-background.tsx:52-55 | moving some particles keeps every id and the length of the array |
| ParticleField.FrameChecksPairs | components/particle-background.tsx:52-95 | after m particles have been handled, the checks made cover exactly the first m rows |
| ParticleField.FrameExaminesEachPairOnce | components/particle-background.tsx:52-95 | with ids equal to indices, a frame examines each unordered pair exactly once, n(n-1)/2 checks |
| ParticleField.RowChecksInOrder | components/particle-background.tsx:79-94 | row i's checks are those of particle i with particles i+1, …, n-1, in order |
| ParticleField.RowSeesUnmovedPartners | components/particle-background.tsx:52-94 | particle i is compared after its own move, against partners that have not yet moved this frame |
| ParticleField.Field.ExamineRow | components/particle-background.tsx:79-94 | the inner loop makes exactly the checks RowChecks specifies and changes no particle |
| ParticleField.Field.MoveAndExamine | components/particle-background.tsx:52-94 | the outer loop's body for particle i: afterwards the array is the snapshot with particles 0..i moved, and the row is RowChecks on that snapshot |
| ParticleField.Field.Animate | components/particle-background.tsx:42-98 | a frame leaves the array holding the stepped particles (each Advance-d), keeps ids equal to indices and every particle's id, radius and opacity, and makes the checks FrameChecks specifies |
| ParticleField.Field.CreateParticles | components/particle-background.tsx:21-40 | a fresh array holding the generation replaces the old one; size and pointer are kept |
| ParticleField.Field.Resize | components/particle-background.tsx:107-111 | the surface takes the window size and the particles are regenerated for it |
| ParticleField.Field.PointerMove | components/particle-background.tsx:113-115 | the pointer position is recorded and nothing else changes |
| ParticleField.Field.constructor | components/particle-background.tsx:17-18 | no particles and the pointer at (0, 0) |
| AboutCarousel.NextIndex | components/about-section.tsx:103 | (i+1) mod len stays below len, and is i+1, or 0 after the last slide |
| AboutCarousel.PrevIndex | components/about-section.tsx:108 | (i-1+len) mod len stays below len |
| AboutCarousel.PrevWraps | components/about-section.tsx:108 | from slide i < len going back lands on i-1, or on len-1 from slide 0 |
| AboutCarousel.PrevUndoesNext | components/about-section.tsx:103-108 | prev after next, and next after prev, return to the same slide |
| AboutCarousel.ForwardIsModular | components/about-section.tsx:103 | k presses of next from slide i land on (i+k) mod len |
| AboutCarousel.ModSucc | components/about-section.tsx:103 | taking the remainder before adding one lands on the same slide |
| AboutCarousel.FullRound | components/about-section.tsx:103 | len presses of next return to the starting slide |
| AboutCarousel.RunStaysInRange | components/about-section.tsx:96-115 | under any sequence of next, prev, tick and valid indicator clicks the slide index stays in [0, len) |
| AboutCarousel.AutoplayNeverResumes | components/about-section.tsx:92-115 | autoplay is on at the end iff it was on at the start and every control was a timer tick |
| AboutCarousel.Step | components/about-section.tsx:92-115 | one control: a timer tick advances only while autoplay is on; next, previous and go-to move the slide and turn autoplay off; stated by RunStaysInRange, AutoplayNeverResumes and TicksAdvance |
| AboutCarousel.Run | components/about-section.tsx:88-115 | a sequence of controls applied in turn from a state |
| AboutCarousel.TicksAdvance | components/about-section.tsx:92-97 | while autoplay is on, k ticks advance like k nexts and keep autoplay on; with it off they change nothing |
| AboutCarousel.ForwardShift | components/about-section.tsx:103 | one next followed by k more is k+1 nexts |
| AboutCarousel.Progress | components/about-section.tsx:265 | the bar width (i+1)/len·100 percent; stated by ProgressBounds and ProgressScenario |
| AboutCarousel.ProgressBounds | components/about-section.tsx:265 | for any number of slides, including one, every slide's bar width is in (0, 100], the last slide's is 100%, and every later slide's bar is wider |
| AboutCarousel.ProgressScenario | components/about-section.tsx:265 | with five slides it reads 20% on the first and 100% on the last |
| AboutCarousel.Indicators | components/about-section.tsx:247-255 | indicator k is highlighted iff k is the current slide |
| AboutCarousel.ExactlyOneIndicator | components/about-section.tsx:247-255 | exactly one indicator is highlighted |
| AboutCarousel.Carousel.constructor | components/about-section.tsx:89-90 | first slide, autoplay on |
| AboutCarousel.Carousel.NextSlide | components/about-section.tsx:102-105 | the state becomes Step(state, Next): (i+1) mod 5, autoplay off |
| AboutCarousel.Carousel.PrevSlide | components/about-section.tsx:107-110 | the state becomes Step(state, Prev): (i-1+5) mod 5, autoplay off |
| AboutCarousel.Carousel.GoToSlide | components/about-section.tsx:112-115 | the state becomes Step(state, GoTo(k)): slide k, autoplay off |
| AboutCarousel.Carousel.AutoplayTick | components/about-section.tsx:92-97 | the state becomes Step(state, Tick): the slide advances only while autoplay is on |
| EmailJs.MissingConfigMessage | lib/emailjs.ts:16-21 | the error text: a heading and a ✓/✗ line for each of the three variables; stated by MissingConfigMarks |
| EmailJs.LoadConfig | lib/emailjs.ts:10-22 | loading succeeds iff all three variables are set and non-empty; otherwise the error ticks off each variable |
| EmailJs.MissingConfigMarks | lib/emailjs.ts:16-20 | the load error is the heading and the three labels, each followed by ✓ exactly when that variable is set and ✗ exactly when it is not |
| EmailJs.FullName | lib/emailjs.ts:46-47 | the first name, a space and the last name; read back by FullNameParts |
| EmailJs.BuildParams | lib/emailjs.ts:45-50 | subject is "Message from " + name, name is first + " " + last, Message and email are copied verbatim |
| EmailJs.FullNameParts | lib/emailjs.ts:47 | the name is the first name, one space, then the last name |
| EmailJs.Describe | lib/emailjs.ts:80 | the error description is the message, else the text, else "Unknown error"; never empty |
| EmailJs.SendEmail | lib/emailjs.ts:33-85 | an incomplete form throws "Missing required form data" and sends nothing; otherwise the request carries the ids and parameters, and the call resolves with success true iff delivered, else throws the detailed error |
| EmailJs.NeverResolvesUnsuccessful | lib/emailjs.ts:65-84 | sendEmail never resolves with success false |
| EmailJs.DeliveryErrorMessage | lib/emailjs.ts:79-84 | the thrown text: the description, the status or "No status", the service id and the template id; stated by DeliveryErrorShape |
| EmailJs.DeliveryErrorShape | lib/emailjs.ts:79-84 | a thrown delivery error starts with "EmailJS error: " followed by the description |
| Numerals.DigitChar | lib/emailjs.ts:81 | a digit's character is a decimal digit with that value |
| Numerals.DigitValue | lib/emailjs.ts:81 | a digit character's value is below 10 and renders back to it |
| Numerals.Decimal | lib/emailjs.ts:81 | a number renders as a non-empty string of digits, one digit exactly when it is below 10 |
| Numerals.ValueOfDecimal | lib/emailjs.ts:81 | reading a rendered number gives the number back |
| Numerals.DecimalInjective | components/professional-highlights-section.tsx:161 | different numbers render differently |
| ContactForm.IndexOf | components/contact-section.tsx:35 | the first position of a character, or none when it does not occur |
| ContactForm.IndexOfFirst | components/contact-section.tsx:35 | a position holding the character with none before it is the one found |
| ContactForm.AddressParts | components/contact-section.tsx:35 | local@host.suffix splits back into local, '@' and host.suffix |
| ContactForm.ValidEmailMatches | components/contact-section.tsx:35-36 | every address the test accepts matches the pattern |
| ContactForm.MatchIsValidEmail | components/contact-section.tsx:35-36 | every address the pattern matches is accepted |
| ContactForm.IsWhitespace | components/contact-section.tsx:35 | the code points JavaScript's `\s` matches |
| ContactForm.IsValidEmail | components/contact-section.tsx:35-36 | the address test, split at the first '@' and at an inner dot of the domain; tied to the pattern by IsValidEmailMatchesPattern |
| ContactForm.MatchesPattern | components/contact-section.tsx:35 | the pattern read as a grammar: a word, '@', a word, '.', a word, where a word is one or more characters that are neither whitespace nor '@' |
| ContactForm.IsValidEmailMatchesPattern | components/contact-section.tsx:35-36 | the test accepts exactly the strings matching ^[^\s@]+@[^\s@]+\.[^\s@]+$ |
| ContactForm.RejectedWithoutDot | components/contact-section.tsx:35-36 | "a@bc", with no dot after the "@", is refused |
| ContactForm.RejectedWithoutLocalPart | components/contact-section.tsx:35-36 | "@b.c", with nothing before the "@", is refused |
| ContactForm.RejectedLeadingDot | components/contact-section.tsx:35-36 | "a@.bc", whose domain starts with the dot, is refused |
| ContactForm.RejectedTrailingDot | components/contact-section.tsx:35-36 | "a@bc.", whose domain ends with the dot, is refused |
| ContactForm.RejectedSecondAt | components/contact-section.tsx:35-36 | "a@b@c.d" is refused |
| ContactForm.RejectedSpace | components/contact-section.tsx:35-36 | "a b@c.d" is refused |
| ContactForm.AcceptedPlain | components/contact-section.tsx:35-36 | "me@site.org" is accepted |
| ContactForm.AcceptedDottedDomain | components/contact-section.tsx:35-36 | every address whose domain is two or more dot-separated words is accepted |
| ContactForm.DottedWord | components/contact-section.tsx:35 | words joined by dots are again a word of the pattern |
| ContactForm.AcceptedSeveralDots | components/contact-section.tsx:35-36 | "a@b.c.d", with three labels after the "@", is accepted |
| ContactForm.FailureDetail | components/contact-section.tsx:56 | the failure detail is error.message, else error.text, else "Failed to send message" |
| ContactForm.UnsuccessfulNotice | components/contact-section.tsx:55-58 | the toast for an unsuccessful result: "Failed to send message: " and the detail |
| ContactForm.ThrownNotice | components/contact-section.tsx:61-62 | the toast for a thrown error: "An error occurred: " and its message, or "Unknown error" |
| ContactForm.Submit | components/contact-section.tsx:23-66 | one submission: the checks in source order, the request sent, the toast and the form afterwards; stated by EmptyFieldRejected, InvalidEmailRejected, ValidFormSent and ResetOnlyOnDelivery |
| ContactForm.EmptyFieldRejected | components/contact-section.tsx:28-32 | an empty field gives "Please fill in all fields", sends nothing and keeps the form |
| ContactForm.InvalidEmailRejected | components/contact-section.tsx:35-40 | a filled form whose address does not match gives "Please enter a valid email address" and sends nothing |
| ContactForm.ValidFormSent | components/contact-section.tsx:42-62 | a filled, well-formed form is sent with its parameters; delivery clears the form with the success notice, rejection keeps it and shows the thrown message |
| ContactForm.ResetOnlyOnDelivery | components/contact-section.tsx:45-59 | the form is cleared exactly when the message was delivered, else unchanged |
| ContactForm.UnreachableBranches | components/contact-section.tsx:28-62 | only four notices occur; the "Failed to send message" branch is never reached |
| ContactForm.EmptyEmailGetsFillInNotice | components/contact-section.tsx:28-40 | an empty address gets the fill-in notice, not the invalid-address one |
| ContactForm.Update | components/contact-section.tsx:68-74 | the named field takes the value and the other three keep theirs |
| ContactForm.UpdateLaws | components/contact-section.tsx:68-74 | rewriting a field's own value changes nothing; a later edit of a field overrides an earlier one |
| ContactForm.Contact.constructor | components/contact-section.tsx:15-21 | an empty form, not submitting |
| ContactForm.Contact.HandleSubmit | components/contact-section.tsx:23-66 | the notice, request and new form are those of Submit on the old form, and isSubmitting ends false on every path |
| ContactForm.Contact.HandleChange | components/contact-section.tsx:68-74 | the form becomes Update(form, field, value) |
| HeroTypewriter.TickState | components/hero-section.tsx:14-21 | one firing: while the counter is at most the length it shows that many characters and counts up; past the end it clears the timer; stated by TicksFromStart and ExactlyLenPlusOneUpdates |
| HeroTypewriter.Reachable | components/hero-section.tsx:12-21 | the states the effect can reach: counter one ahead of the shown prefix while running, the whole title once cleared |
| HeroTypewriter.StartReachable | components/hero-section.tsx:9-13 | the initial state is a reachable typing state |
| HeroTypewriter.TickPreservesReachable | components/hero-section.tsx:14-21 | a firing keeps the counter and the shown text in step |
| HeroTypewriter.ReachableShowsPrefix | components/hero-section.tsx:16 | every reachable state shows a prefix of the title |
| HeroTypewriter.TicksFromStart | components/hero-section.tsx:12-21 | after firing k, 1 ≤ k ≤ len+1, the first k-1 characters are shown; afterwards the timer is cleared with the whole title shown |
| HeroTypewriter.AlwaysPrefix | components/hero-section.tsx:16 | the shown text is always a prefix of the title |
| HeroTypewriter.FirstTickShowsNothing | components/hero-section.tsx:13-17 | the first firing shows "" |
| HeroTypewriter.OneCharacterPerTick | components/hero-section.tsx:15-18 | each update after the first adds exactly the next character |
| HeroTypewriter.ExactlyLenPlusOneUpdates | components/hero-section.tsx:15-20 | the text is set exactly len+1 times, ends equal to the title, and nothing changes after the timer is cleared |
| HeroTypewriter.TitleScenario | components/hero-section.tsx:10 | the title has 43 characters, shows "AI Engineer" after 12 firings and is complete after 44 |
| HeroTypewriter.Typewriter.constructor | components/hero-section.tsx:9-13 | counter 0, nothing shown, timer set |
| HeroTypewriter.Typewriter.Tick | components/hero-section.tsx:14-21 | the state becomes TickState(state, title) |
| HighlightsMarquee.Tripled | components/professional-highlights-section.tsx:121 | the highlights listed three times; stated by TripledShape |
| HighlightsMarquee.Key | components/professional-highlights-section.tsx:161 | the card key `${id}-${index}`; stated by KeyDeterminesParts and KeysDistinct |
| HighlightsMarquee.TripledShape | components/professional-highlights-section.tsx:121 | the rendered list has 3·n cards and card i is highlight i mod n |
| HighlightsMarquee.LeadingDigitsOf | components/professional-highlights-section.tsx:161 | digits followed by a non-digit have exactly that many leading digits |
| HighlightsMarquee.KeyDeterminesParts | components/professional-highlights-section.tsx:161 | a key `id-index` determines both its id and its index |
| HighlightsMarquee.KeysDistinct | components/professional-highlights-section.tsx:121-161 | the rendered cards' keys are pairwise distinct |
| HighlightsMarquee.RowScenario | components/professional-highlights-section.tsx:9-52 | the seven highlights give 21 cards, card 7 is the first highlight again and card 20 the last |
| HighlightsMarquee.AutoScrollStep | components/professional-highlights-section.tsx:68-73 | at or past half the scroll width the position resets to 0, otherwise it grows by one |
| HighlightsMarquee.StepStaysInBand | components/professional-highlights-section.tsx:68-73 | a step keeps the position in [0, scrollWidth/2 + 1) |
| HighlightsMarquee.AutoScroll | components/professional-highlights-section.tsx:61-79 | k frames of automatic scrolling; stated by AutoScrollStaysInBand, AutoScrollClimbs and AutoScrollCycle |
| HighlightsMarquee.AutoScrollStaysInBand | components/professional-highlights-section.tsx:68-75 | any number of frames keeps the position in that band |
| HighlightsMarquee.AutoScrollClimbs | components/professional-highlights-section.tsx:68-75 | from 0, frame k is at position k up to ⌈scrollWidth/2⌉ |
| HighlightsMarquee.AutoScrollCycle | components/professional-highlights-section.tsx:68-75 | from 0 the position returns to 0 after ⌈scrollWidth/2⌉+1 frames and repeats with that period |
| HighlightsMarquee.AutoScrollShift | components/professional-highlights-section.tsx:68-75 | j frames then k frames are j+k frames |
| HighlightsMarquee.DragTarget | components/professional-highlights-section.tsx:94-97 | a drag puts the row at the saved position minus twice the pointer travel, which restores the saved position at the start x |
| HighlightsMarquee.Step | components/professional-highlights-section.tsx:61-118 | one event of the row: frames move it only while neither paused nor dragging; presses, moves and releases drive the drag; enter and leave pause and resume; stated by FrameGated, MoveEffect, BeginDragEffect and EndEffects |
| HighlightsMarquee.FrameGated | components/professional-highlights-section.tsx:61-79 | a frame changes nothing while paused or dragging, and otherwise only steps the position |
| HighlightsMarquee.MoveEffect | components/professional-highlights-section.tsx:91-118 | a move while not dragging does nothing; while dragging it sets only the position, to DragTarget |
| HighlightsMarquee.BeginDragEffect | components/professional-highlights-section.tsx:81-85 | mouse down and touch start act alike: dragging on, start x and current position recorded, position and pause kept |
| HighlightsMarquee.EndEffects | components/professional-highlights-section.tsx:87-109 | mouse leave clears pause and drag; mouse up and touch end clear only the drag |
| HighlightsMarquee.DragScenario | components/professional-highlights-section.tsx:81-97 | a press and a move shift the row by twice the travel, the other way; moving back restores it |
| HighlightsMarquee.Row.constructor | components/professional-highlights-section.tsx:55-59 | not paused, not dragging, positions 0 |
| HighlightsMarquee.Row.AnimationFrame | components/professional-highlights-section.tsx:61-79 | the state becomes Step(state, Frame) |
| HighlightsMarquee.Row.BeginDrag | components/professional-highlights-section.tsx:81-85 | the state becomes Step(state, MouseDown(x)) |
| HighlightsMarquee.Row.Drag | components/professional-highlights-section.tsx:91-99 | the state becomes Step(state, MouseMove(x)) |
| HighlightsMarquee.Row.EndDrag | components/professional-highlights-section.tsx:87-89 | the state becomes Step(state, MouseUp) |
| HighlightsMarquee.Row.MouseEnter | components/professional-highlights-section.tsx:147 | the state becomes Step(state, MouseEnter): paused |
| HighlightsMarquee.Row.MouseLeave | components/professional-highlights-section.tsx:148-151 | the state becomes Step(state, MouseLeave): neither paused nor dragging |
| Skills.InCategory | components/skills-section.tsx:97 | a card's list is no longer than the skill list and holds only skills of its category |
| Skills.InCategoryMembers | components/skills-section.tsx:97 | a skill is on a card iff it is in the list with that category |
| Skills.InCategoryAppend | components/skills-section.tsx:97 | the filter distributes over concatenation, so the list order is kept |
| Skills.InCategorySingle | components/skills-section.tsx:97 | one skill lands on its own card only |
| Skills.CardTotal | components/skills-section.tsx:95-97 | the number of skills on the cards with the given ids; stated by CardTotalCons and CardsPartition |
| Skills.CardTotalCons | components/skills-section.tsx:95-97 | one more skill adds one to each card of its category |
| Skills.CardsPartition | components/skills-section.tsx:95-97 | with distinct card ids covering every skill's category, the card sizes sum to the number of skills |
| Skills.InCategoryAll | components/skills-section.tsx:97 | a group of one category is kept whole |
| Skills.InCategoryNone | components/skills-section.tsx:97 | a group of other categories contributes nothing |
| Skills.CardOf | components/skills-section.tsx:97 | a group between other categories is exactly its card |
| Skills.LanguagesCard | components/skills-section.tsx:97 | the "language" card shows exactly the nine languages of lines 8-16, in the order written |
| Skills.FrameworksCard | components/skills-section.tsx:97 | the "framework" card shows exactly the four frameworks of lines 19-22, in order |
| Skills.ToolsCard | components/skills-section.tsx:97 | the "tools" card shows exactly the thirteen tools of lines 25-37, in order |
| Skills.LibrariesCard | components/skills-section.tsx:97 | the "library" card shows exactly the six libraries of lines 40-45, in order |
| Skills.SiteCards | components/skills-section.tsx:6-73 | 32 skills, four distinct category ids covering them all, cards of 9, 4, 13 and 6, summing to 32 |
| Skills.LanguageNamesDistinct | components/skills-section.tsx:8-16 | no two languages share a name, so the name is a sound key on their card (line 120) |
| Skills.FrameworkNamesDistinct | components/skills-section.tsx:19-22 | no two frameworks share a name |
| Skills.ToolNamesDistinct | components/skills-section.tsx:25-37 | no two tools share a name |
| Skills.LibraryNamesDistinct | components/skills-section.tsx:40-45 | no two libraries share a name |
| Skills.DistinctJoin | components/skills-section.tsx:120 | two lists with distinct names and no name in common concatenate to a list with distinct names |
| Skills.Noun | components/skills-section.tsx:139 | the noun is "skill" iff the count is 1, "skills" otherwise |
| Skills.CountLabel | components/skills-section.tsx:139 | the badge: the count's decimal digits, a space, then Noun(n); stated by CountLabelReadsBack and LabelScenario |
| Skills.CountLabelReadsBack | components/skills-section.tsx:139 | the badge is the count's digits followed by a space; the digits read back to the count, and the word after the space is "skill" exactly when the count is 1 |
| Skills.LabelScenario | components/skills-section.tsx:139 | the badges read "1 skill" and "13 skills" |

## Left out

- Canvas drawing is left out: the clearing, arcs, fills, strokes and colour strings only render values the model computes, such as the line alpha.
- The `requestAnimationFrame`, `setInterval`, `clearInterval` and `cancelAnimationFrame` scheduling is left out. Each frame or firing is an explicit method call, and a cleared timer is a state the typewriter's `Tick` requires not to be in.
- The pointer attraction at particle-background.tsx:62-70 is left out because it needs a square root and floating-point division. It is the input `Pull`. The source does not guard against a distance of 0.
- The square-root distance of a pair is left out for the same reason. It is the input `Metric`.
- Floating-point rounding is left out: particle coordinates and velocities, the link opacity (`ParticleField.LinkAlpha`) and the progress bar width (`AboutCarousel.Progress`) are exact reals.
- The particle count reads `window.innerWidth`/`innerHeight` while positions use the canvas size. The two agree after `resizeCanvas`, so the model uses one width and height.
- The window listeners and their removal on unmount are left out, since they are DOM wiring.
- `Math.random` is left out. Its draws are the input `random`.
- JavaScript numbers are doubles: from 10^21 on they print in exponent form, and above 2^53 they are no longer exact integers. Ids, HTTP statuses, counts and indices are `nat` here; every one the site renders is far below those bounds.
- The early returns when the canvas element or its 2D context is missing (particle-background.tsx:23, 45 and 99-104) are left out: the model assumes both exist, and if `getContext("2d")` fails nothing starts at all.
- `emailjs.init`, `emailjs.send`, `process.env` and all console logging are left out as foreign calls and I/O. The configuration is three optional strings and the delivery outcome an input.
- The module-load failure of `emailjs.init` is left out because it belongs to a library that is not part of this model.
- JavaScript's `\s` is modelled as its fixed list of code points. A Dafny `char` is a Unicode scalar value, while the source's regex (which has no `u` flag) and `slice`/`length` work on UTF-16 code units: a character outside the Basic Multilingual Plane is one `char` here and two units there, and a lone surrogate cannot be written at all. This changes nothing the model states: surrogate halves are neither `\s` nor '@', and the typed title is ASCII. No Unicode normalisation is done.
- Toasts are left out. They are the `Notice` a submission returns.
- The interval during which `isSubmitting` is true while `await` is pending is left out. `HandleSubmit` completes in one call, and only its final false value is stated.
- React's batching of state updates is left out. Each handler sees the state left by the previous event.
- Part of the marquee's DOM behaviour is left out:
  - the browser's clamping of `scrollLeft` to the scrollable range;
  - fractional scroll positions;
  - the reading of `pageX` and `offsetLeft`.
  - layout changes of the scroll width: `Row` takes `scrollWidth` once, at construction, while the source reads `container.scrollWidth` on every frame (professional-highlights-section.tsx:68-73). The scroll width changes only at the md breakpoint, where the card width (300 to 400 pixels, line 162) and the gap between cards (line 152) change.

  Positions and pointer coordinates are whole pixels relative to the container. `Row.Drag` covers both the mouse and the touch move handlers, and `Row.BeginDrag` both the mouse down and the touch start.
- The `scrollIntoView` button of the hero section and the framer-motion animations are left out, as presentation only.
- The browser's constraint validation of the contact form is left out: the `required` fields (contact-section.tsx:212, 227, 244, 259), the `type="email"` check (line 238) and the controls disabled while `isSubmitting` (lines 211-265) decide which submissions reach `handleSubmit`. `Submit` models the handler for any form that reaches it, including ones those checks would have stopped.
- The rest of the markup is left out, as presentation only.
- The projects section, the layout, the page composition and the providers are left out. They hold static data and page wiring.
- HeroTypewriter.Typewriter.Tick: requires the timer to be running, because a cleared interval never fires again.
