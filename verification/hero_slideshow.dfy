/** The landing-page slideshow: a current index and an autoplay flag. The interval
    tick and the resume timeout are discrete events; `%` is JavaScript's remainder,
    which takes the sign of the dividend. */
module HeroSlideshow {
  import opened Wrappers

  datatype Action = Register | Login | Demo

  /** What the two buttons of a slide do; the texts and images are not modelled. */
  datatype Slide = Slide(primary: Action, secondary: Action)

  /** The ten slides, in order (their ids run 1 to 7, 7.1, 8, 9). */
  const Slides: seq<Slide> := [
    Slide(Register, Demo), Slide(Register, Login), Slide(Register, Login), Slide(Register, Login),
    Slide(Register, Login), Slide(Register, Demo), Slide(Register, Login), Slide(Register, Login),
    Slide(Register, Login), Slide(Register, Login)
  ]

  /** `slides.length`. */
  const SlideCount: nat := 10

  /** Every primary button registers; only the first and sixth slides (ids 1 and 6)
      have a demo button, every other secondary button signs in. */
  lemma SlideFacts()
    ensures |Slides| == SlideCount
    ensures forall i :: 0 <= i < SlideCount ==> Slides[i].primary == Register
    ensures forall i :: 0 <= i < SlideCount ==> (Slides[i].secondary == Demo <==> i == 0 || i == 5)
    ensures forall i :: 0 <= i < SlideCount ==> (Slides[i].secondary == Login <==> i != 0 && i != 5)
  {
  }

  /** JavaScript's `a % n` for a positive `n`: the magnitude is `|a|` modulo `n` and
      the sign is that of `a`. */
  function JsRem(a: int, n: nat): (r: int)
    requires n > 0
    ensures a >= 0 ==> r == a % n
    ensures a < 0 ==> r <= 0 && -r == (-a) % n
  {
    if a >= 0 then a % n else -((-a) % n)
  }

  datatype Show = Show(current: int, autoPlaying: bool)

  /** `useState(0)` and `useState(true)`. */
  const Start: Show := Show(0, true)

  predicate InRange(s: Show) {
    0 <= s.current < SlideCount
  }

  /** `nextSlide`: pause autoplay and step forward, wrapping after the last slide. */
  function NextSlide(s: Show): (r: Show)
    ensures !r.autoPlaying
    ensures InRange(s) ==> InRange(r) && r.current == (s.current + 1) % SlideCount
  {
    Show(JsRem(s.current + 1, SlideCount), false)
  }

  /** `prevSlide`: pause autoplay and step back, wrapping before the first slide. */
  function PrevSlide(s: Show): (r: Show)
    ensures !r.autoPlaying
    ensures InRange(s) ==> InRange(r) && r.current == (s.current - 1 + SlideCount) % SlideCount
  {
    Show(JsRem(s.current - 1 + SlideCount, SlideCount), false)
  }

  /** `goToSlide(index)`: pause autoplay and store the index unchecked. */
  function GoToSlide(s: Show, index: int): (r: Show)
    ensures !r.autoPlaying && r.current == index
    ensures InRange(r) <==> 0 <= index < SlideCount
  {
    Show(index, false)
  }

  /** The resume timeout firing. */
  function Resume(s: Show): (r: Show)
    ensures r.autoPlaying && r.current == s.current
  {
    s.(autoPlaying := true)
  }

  /** One interval tick: it advances only while autoplay is on, as `nextSlide` would,
      but keeps autoplay on. */
  function Tick(s: Show): (r: Show)
    ensures !s.autoPlaying ==> r == s
    ensures s.autoPlaying ==> r == NextSlide(s).(autoPlaying := true)
  {
    if s.autoPlaying then s.(current := JsRem(s.current + 1, SlideCount)) else s
  }

  /** Next and previous undo each other on every valid index, and the three stepping
      events keep the index valid. */
  lemma StepsStayInRangeAndInvert(s: Show)
    requires InRange(s)
    ensures InRange(NextSlide(s)) && InRange(PrevSlide(s)) && InRange(Tick(s))
    ensures PrevSlide(NextSlide(s)).current == s.current
    ensures NextSlide(PrevSlide(s)).current == s.current
  {
  }

  /** An index stored out of range stays out of range: from a negative index the
      remainder is negative too, so the slide data would be missing. */
  lemma OutOfRangeIsNotRepaired()
    ensures NextSlide(GoToSlide(Start, -3)).current == -2
    ensures !InRange(NextSlide(GoToSlide(Start, -3)))
    ensures NextSlide(GoToSlide(Start, 10)).current == 1
  {
  }

  /** `k` autoplay ticks from a valid index. */
  function Advance(s: Show, k: nat): Show
    decreases k
  {
    if k == 0 then s else Tick(Advance(s, k - 1))
  }

  /** While autoplay runs, `k` ticks move `k` slides forward modulo the slide count,
      so ten ticks come back to the same slide. */
  lemma {:induction false} AdvanceIsModular(s: Show, k: nat)
    requires InRange(s) && s.autoPlaying
    ensures Advance(s, k).autoPlaying && Advance(s, k).current == (s.current + k) % SlideCount
    decreases k
  {
    if k > 0 {
      AdvanceIsModular(s, k - 1);
      var c := (s.current + k - 1) % SlideCount;
      assert Advance(s, k).current == (c + 1) % SlideCount;
      ModStep(s.current + k - 1);
    }
  }

  lemma ModStep(a: nat)
    ensures (a % SlideCount + 1) % SlideCount == (a + 1) % SlideCount
  {
  }

  /** `handleSlideClick(action)`: the path navigated to, if any. */
  function HandleSlideClick(action: string): (r: Option<string>)
    ensures r.Some? <==> action == "register" || action == "login"
    ensures r.Some? ==> r.value == "/" + action
  {
    if action == "register" then Some("/register")
    else if action == "login" then Some("/login")
    else None
  }

  function ActionName(a: Action): string {
    match a
    case Register => "register"
    case Login => "login"
    case Demo => "demo"
  }

  /** Every button of every slide navigates, except the demo buttons, which do nothing. */
  lemma SlideButtonsNavigate(i: nat)
    requires i < SlideCount
    ensures HandleSlideClick(ActionName(Slides[i].primary)) == Some("/register")
    ensures HandleSlideClick(ActionName(Slides[i].secondary)).None? <==> i == 0 || i == 5
  {
    SlideFacts();
  }
}
