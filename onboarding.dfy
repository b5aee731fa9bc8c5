/** The onboarding pager: three slides, a next button that becomes "Get
    Started" on the last slide, a skip button and one dot per slide. */
module Onboarding {

  datatype Slide = Slide(key: string, title: string)

  const Slides: seq<Slide> := [
    Slide("1", "Welcome to PodcaX"),
    Slide("2", "Listener Onboarding"),
    Slide("3", "Social Onboarding")
  ]

  const SlideCount := |Slides|

  /** What a button asks of the pager or the router. */
  datatype PagerAction = ScrollTo(index: int) | ReplaceRoute(path: string)

  /** Next: scroll one slide on, or leave for the sign-up screen from the
      last slide. */
  function NextAction(currentIndex: int, n: int): (a: PagerAction)
    ensures currentIndex < n - 1 ==> a == ScrollTo(currentIndex + 1)
    ensures currentIndex >= n - 1 ==> a == ReplaceRoute("/signup")
  {
    if currentIndex < n - 1 then ScrollTo(currentIndex + 1) else ReplaceRoute("/signup")
  }

  /** Skip: scroll to the last slide. */
  function SkipAction(n: int): (a: PagerAction)
    ensures a == ScrollTo(n - 1)
  {
    ScrollTo(n - 1)
  }

  /** A dot: scroll to its slide. */
  function DotAction(index: int): (a: PagerAction)
    ensures a == ScrollTo(index)
  {
    ScrollTo(index)
  }

  /** The slide reached by pressing Next `presses` times from `index`, each
      scroll settling on its target; a press on the last slide leaves the
      pager and ends the walk. */
  function AfterNext(index: int, n: int, presses: nat): int
    decreases presses
  {
    if presses == 0 then index
    else match NextAction(index, n)
      case ScrollTo(j) => AfterNext(j, n, presses - 1)
      case ReplaceRoute(_) => index
  }

  /** Pressing Next walks the slides one by one without skipping any. */
  lemma {:induction false} NextWalksSlides(index: int, n: int, presses: nat)
    requires index + presses <= n - 1
    ensures AfterNext(index, n, presses) == index + presses
    decreases presses
  {
    if presses > 0 {
      NextWalksSlides(index + 1, n, presses - 1);
    }
  }

  /** From the first slide, n - 1 presses of Next reach the last slide, where
      the button reads "Get Started" and one more press opens sign-up. */
  lemma NextFromStartReachesSignUp()
    ensures AfterNext(0, SlideCount, SlideCount - 1) == SlideCount - 1
    ensures ShowsGetStarted(AfterNext(0, SlideCount, SlideCount - 1), SlideCount)
    ensures NextAction(SlideCount - 1, SlideCount) == ReplaceRoute("/signup")
  {
    NextWalksSlides(0, SlideCount, SlideCount - 1);
  }

  /** Skip lands on the last slide, so the next press of Next opens sign-up. */
  lemma SkipThenNextLeaves()
    ensures NextAction(SkipAction(SlideCount).index, SlideCount) == ReplaceRoute("/signup")
  {
  }

  /** There are three slides, keyed "1", "2" and "3". */
  lemma SlideKeys()
    ensures SlideCount == 3
    ensures forall i :: 0 <= i < SlideCount ==> Slides[i].key == [('1' as int + i) as char]
  {
  }

  /** The next button reads "Get Started" on the last slide only. */
  predicate ShowsGetStarted(currentIndex: int, n: int)
  {
    currentIndex == n - 1
  }

  /** A dot is highlighted when it is the current slide's. */
  predicate DotHighlighted(dot: int, currentIndex: int)
  {
    dot == currentIndex
  }

  /** Exactly one dot is highlighted while the current index is a slide. */
  lemma OneDotHighlighted(currentIndex: int, n: int)
    requires 0 <= currentIndex < n
    ensures DotHighlighted(currentIndex, currentIndex)
    ensures forall d :: 0 <= d < n && DotHighlighted(d, currentIndex) ==> d == currentIndex
  {
  }

  /** The "Get Started" label appears exactly when Next would leave the
      pager, for an index on a slide. */
  lemma GetStartedIffNextLeaves(currentIndex: int, n: int)
    requires 0 <= currentIndex < n
    ensures ShowsGetStarted(currentIndex, n) <==> NextAction(currentIndex, n).ReplaceRoute?
  {
  }

  class OnboardingScreen {
    var currentIndex: int

    constructor ()
      ensures currentIndex == 0
    {
      currentIndex := 0;
    }

    /** `handleNext`; it does not change the current index. */
    method HandleNext() returns (a: PagerAction)
      ensures currentIndex < SlideCount - 1 ==> a == ScrollTo(currentIndex + 1)
      ensures currentIndex >= SlideCount - 1 ==> a == ReplaceRoute("/signup")
    {
      a := NextAction(currentIndex, SlideCount);
    }

    /** `handleSkip`; it does not change the current index. */
    method HandleSkip() returns (a: PagerAction)
      ensures a == ScrollTo(SlideCount - 1)
    {
      a := SkipAction(SlideCount);
    }

    /** `handleDotPress`; it does not change the current index. */
    method HandleDotPress(index: int) returns (a: PagerAction)
      ensures a == ScrollTo(index)
    {
      a := DotAction(index);
    }

    /** The end of a scroll: the page the list settled on, as the rounded
        offset over the screen width, becomes the current index. This is the
        only place the index changes. */
    method OnMomentumScrollEnd(page: int)
      modifies this`currentIndex
      ensures currentIndex == page
    {
      currentIndex := page;
    }
  }
}
