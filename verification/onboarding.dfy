/**
 The onboarding carousel: five slides, a "next" button that completes the
 carousel on the last slide instead of advancing, and a "skip" button that
 completes it from any slide on which it is shown.
 */
module Onboarding {

  /** Number of slides in the carousel. */
  const SlideCount: nat := 5

  /** Index of the last slide. */
  const LastSlide: nat := SlideCount - 1

  /** A slide index that addresses an existing slide. */
  type Slide = i: nat | i < SlideCount

  /** Result of a button press: the slide shown afterwards and whether the
      carousel reported completion to its caller. */
  datatype Press = Press(slide: Slide, completed: bool)

  /** The carousel mounts on the first slide. */
  function Init(): (s: Slide)
    ensures s == 0
  {
    0
  }

  /** The "next" button: on the last slide it completes and leaves the index
      alone, otherwise it moves to the following slide without completing. */
  function HandleNext(s: Slide): (r: Press)
    ensures r.completed <==> s == LastSlide
    ensures r.completed ==> r.slide == s
    ensures !r.completed ==> r.slide == s + 1
  {
    if s == LastSlide then Press(s, true) else Press(s + 1, false)
  }

  /** The "skip" button: completes from the slide it is pressed on. */
  function HandleSkip(s: Slide): (r: Press)
    ensures r.completed && r.slide == s
  {
    Press(s, true)
  }

  /** The skip button is rendered on every slide but the last. */
  predicate SkipOffered(s: Slide) {
    s < LastSlide
  }

  /** The label of the main button. */
  datatype Label = NextLabel | StartLabel

  /** The main button reads "start using" on the last slide, "next" elsewhere. */
  function ButtonLabel(s: Slide): (r: Label)
    ensures r == StartLabel <==> s == LastSlide
  {
    if s == LastSlide then StartLabel else NextLabel
  }

  /** The carousel as its caller sees it: a slide on screen, or finished. */
  datatype Carousel = Showing(slide: Slide) | Finished

  /** A user action. */
  datatype Action = Next | Skip

  /** One action. Skip can only be pressed where it is rendered; once the
      carousel has finished its caller unmounts it and nothing more happens. */
  function Step(c: Carousel, a: Action): (r: Carousel)
    ensures c.Finished? ==> r == c
  {
    match c
    case Finished => Finished
    case Showing(s) =>
      match a
      case Next =>
        var p := HandleNext(s);
        if p.completed then Finished else Showing(p.slide)
      case Skip =>
        if !SkipOffered(s) then c
        else
          var p := HandleSkip(s);
          if p.completed then Finished else Showing(p.slide)
  }

  /** Pressing "next" `n` times. */
  function PressNext(c: Carousel, n: nat): (r: Carousel)
    decreases n
  {
    if n == 0 then c else PressNext(Step(c, Next), n - 1)
  }

  /** Counting from slide `s`, fewer than `SlideCount - s` presses of "next"
      land on slide `s + n` without completing. */
  lemma {:induction false} PressNextAdvances(s: Slide, n: nat)
    requires s + n < SlideCount
    ensures PressNext(Showing(s), n) == Showing(s + n)
    decreases n
  {
    if n > 0 {
      assert Step(Showing(s), Next) == Showing(s + 1);
      PressNextAdvances(s + 1, n - 1);
    }
  }

  /** From the first slide, four presses of "next" leave the carousel
      showing the last slide and the fifth completes it: exactly five presses
      are needed. */
  lemma FiveNextsComplete()
    ensures forall n :: 0 <= n < SlideCount ==> PressNext(Showing(Init()), n).Showing?
    ensures PressNext(Showing(Init()), SlideCount) == Finished
  {
  }

  /** Every action from a showing slide either finishes the carousel or moves
      forward by exactly one slide or, for a skip that is not offered, stays:
      the carousel never moves backwards. */
  lemma StepNeverGoesBack(s: Slide, a: Action)
    ensures Step(Showing(s), a).Showing? ==>
      Step(Showing(s), a).slide == s || Step(Showing(s), a).slide == s + 1
  {
  }

  /** Skip finishes the carousel exactly on the slides where it is shown:
      every slide but the last. */
  lemma SkipFinishesBeforeLast(s: Slide)
    ensures Step(Showing(s), Skip) == Finished <==> s < LastSlide
    ensures Step(Showing(s), Skip) == Finished <==> SkipOffered(s)
  {
  }
}
