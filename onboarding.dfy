/**
  The onboarding carousel's state: which page is shown and whether
  onboarding has been completed
  (MembershipTracker/Generated/OnboardingView.swift, lines 3-63).
 */
module Onboarding {

  /** One carousel page; only its texts and symbol name are data. */
  datatype OnboardingPage = OnboardingPage(title: string, image: string, description: string)

  /** The three pages, in the order they are shown. */
  const Pages: seq<OnboardingPage> := [
    OnboardingPage("Track your memberships and subscriptions easily", "doc.text.fill",
                   "Keep all your subscriptions organized in one place"),
    OnboardingPage("Get reminders for upcoming payments", "bell.fill",
                   "Never miss a payment with timely notifications"),
    OnboardingPage("Stay organized and control your spending", "chart.pie.fill",
                   "Analyze your spending patterns and save money")
  ]

  /** The view's two state fields, as one value. */
  datatype Progress = Progress(currentPage: int, hasCompletedOnboarding: bool)

  const Start: Progress := Progress(0, false)

  /** What `nextButtonTapped` does to the state. */
  function AfterNextTapped(p: Progress): (q: Progress)
    ensures p.currentPage == |Pages| - 1 ==> q == Progress(p.currentPage, true)
    ensures p.currentPage != |Pages| - 1 ==>
      q.currentPage == p.currentPage + 1 && q.hasCompletedOnboarding == p.hasCompletedOnboarding
  {
    if p.currentPage == |Pages| - 1 then p.(hasCompletedOnboarding := true)
    else p.(currentPage := p.currentPage + 1)
  }

  /** The state after `n` taps on the button. */
  function AfterTaps(p: Progress, n: nat): Progress
    decreases n
  {
    if n == 0 then p else AfterTaps(AfterNextTapped(p), n - 1)
  }

  /** From any page in range, taps keep the page in range. */
  lemma {:induction false} TapsStayInRange(p: Progress, n: nat)
    requires 0 <= p.currentPage < |Pages|
    ensures 0 <= AfterTaps(p, n).currentPage < |Pages|
    ensures AfterTaps(p, n).currentPage >= p.currentPage
    decreases n
  {
    if n > 0 {
      TapsStayInRange(AfterNextTapped(p), n - 1);
    }
  }

  /** Once completed, further taps keep it completed on the last page. */
  lemma {:induction false} CompletedStaysCompleted(n: nat)
    ensures AfterTaps(Progress(|Pages| - 1, true), n) == Progress(|Pages| - 1, true)
  {
    if n > 0 {
      CompletedStaysCompleted(n - 1);
    }
  }

  /** From the first page, onboarding completes after exactly three taps and not before. */
  lemma ThreeTapsComplete(n: nat)
    ensures AfterTaps(Start, n).hasCompletedOnboarding <==> n >= 3
  {
    assert AfterTaps(Start, 1) == Progress(1, false);
    assert AfterTaps(Start, 2) == Progress(2, false);
    assert AfterTaps(Start, 3) == Progress(2, true);
    if n > 3 {
      assert AfterTaps(Start, n) == AfterTaps(Progress(2, true), n - 3) by {
        AfterTapsSplit(Start, 3, n - 3);
      }
      CompletedStaysCompleted(n - 3);
    }
  }

  lemma {:induction false} AfterTapsSplit(p: Progress, m: nat, n: nat)
    ensures AfterTaps(p, m + n) == AfterTaps(AfterTaps(p, m), n)
    decreases m
  {
    if m > 0 {
      AfterTapsSplit(AfterNextTapped(p), m - 1, n);
    }
  }

  class OnboardingView {
    /** `@AppStorage("hasCompletedOnboarding")`. */
    var hasCompletedOnboarding: bool
    /** `@State currentPage`. */
    var currentPage: int
    const pages: seq<OnboardingPage>

    ghost predicate Valid()
      reads this
    {
      pages == Pages && 0 <= currentPage < |pages|
    }

    function State(): Progress
      reads this
    {
      Progress(currentPage, hasCompletedOnboarding)
    }

    /** A fresh view with nothing stored under the flag's key. */
    constructor ()
      ensures Valid() && State() == Start
    {
      hasCompletedOnboarding := false;
      currentPage := 0;
      pages := Pages;
    }

    /** The button's label. */
    function NextButtonTitle(): (title: string)
      reads this
      requires Valid()
      ensures title == "Get Started" <==> currentPage == |pages| - 1
      ensures title == "Next" <==> currentPage != |pages| - 1
    {
      if currentPage == |pages| - 1 then "Get Started" else "Next"
    }

    /** `nextButtonTapped`: next page, or on the last page mark onboarding done. */
    method NextButtonTapped()
      requires Valid()
      modifies this
      ensures Valid() && State() == AfterNextTapped(old(State()))
    {
      if currentPage == |pages| - 1 {
        hasCompletedOnboarding := true;
      } else {
        currentPage := currentPage + 1;
      }
    }

    /** The paged `TabView` bound to `currentPage`: a swipe selects one of the page tags. */
    method PageSelected(index: int)
      requires Valid() && 0 <= index < |pages|
      modifies this
      ensures Valid() && State() == Progress(index, old(hasCompletedOnboarding))
    {
      currentPage := index;
    }
  }
}
