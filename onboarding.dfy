/**
 * The onboarding pager: a page index bounded by the number of pages, moved by
 * next, previous and skip, and a completion flag that is also recorded in the
 * key-value store.
 */
module OnboardingFlow {
  import opened ProgressStore

  /** A page of the introduction; its accent colour is left out. */
  datatype OnboardingPage = OnboardingPage(title: string, subtitle: string, description: string, imageName: string)

  const OnboardingPages: seq<OnboardingPage> := [
    OnboardingPage(
      "Welcome to LinguaLearn",
      "Your journey to multilingual mastery begins here",
      "Learn languages through immersive experiences, business scenarios, and cultural entertainment",
      "globe.americas.fill"),
    OnboardingPage(
      "Interactive Language Courses",
      "Real-world conversations await",
      "Master languages through practical scenarios and engaging exercises designed for real-life communication",
      "bubble.left.and.bubble.right.fill"),
    OnboardingPage(
      "Business Skills Integration",
      "Professional communication mastery",
      "Learn business etiquette and communication styles across different cultures to excel globally",
      "briefcase.fill"),
    OnboardingPage(
      "Entertainment Challenges",
      "Culture through movies and music",
      "Discover languages through culturally significant films, music, and entertainment from around the world",
      "tv.and.hifispeaker.fill"),
    OnboardingPage(
      "Personalized Learning",
      "Your unique path to fluency",
      "AI-driven customization adapts to your learning style, pace, and interests for optimal progress",
      "brain.head.profile.fill")
  ]

  lemma OnboardingPageCount()
    ensures |OnboardingPages| == 5
  {
  }

  class OnboardingViewModel {
    var currentPage: int
    var isOnboardingComplete: bool
    const onboardingPages: seq<OnboardingPage>
    const userDefaults: UserDefaults

    /** The page index always names one of the pages. */
    ghost predicate Valid()
      reads this
    {
      0 <= currentPage < |onboardingPages|
    }

    constructor(defaults: UserDefaults)
      ensures onboardingPages == OnboardingPages && userDefaults == defaults
      ensures currentPage == 0 && !isOnboardingComplete
      ensures Valid() && IsFirstPage() && !IsLastPage()
    {
      currentPage := 0;
      isOnboardingComplete := false;
      onboardingPages := OnboardingPages;
      userDefaults := defaults;
    }

    function IsLastPage(): bool
      reads this
    {
      currentPage == |onboardingPages| - 1
    }

    function IsFirstPage(): bool
      reads this
    {
      currentPage == 0
    }

    /** The share of the pages seen so far, counting the current one. */
    function Progress(): (r: real)
      requires Valid()
      reads this
      ensures 0.0 < r <= 1.0
      ensures r * |onboardingPages| as real == (currentPage + 1) as real
      ensures r == 1.0 <==> IsLastPage()
    {
      var n := |onboardingPages| as real;
      var r := (currentPage + 1) as real / n;
      assert r * n == (currentPage + 1) as real;
      assert r == 1.0 ==> (currentPage + 1) as real == n;
      assert IsLastPage() ==> (currentPage + 1) as real == n && r == 1.0;
      r
    }

    /** Turns to the next page, or, on the last page, completes the onboarding. */
    method NextPage()
      requires Valid()
      modifies this`currentPage, this`isOnboardingComplete, userDefaults
      ensures Valid()
      ensures !old(IsLastPage()) ==>
        && currentPage == old(currentPage) + 1
        && isOnboardingComplete == old(isOnboardingComplete)
        && userDefaults.entries == old(userDefaults.entries)
      ensures old(IsLastPage()) ==>
        && currentPage == old(currentPage) && isOnboardingComplete
        && userDefaults.entries == old(userDefaults.entries)[OnboardingCompletedKey := BoolValue(true)]
    {
      if currentPage < |onboardingPages| - 1 {
        currentPage := currentPage + 1;
      } else {
        CompleteOnboarding();
      }
    }

    /** Turns back a page, except on the first. */
    method PreviousPage()
      requires Valid()
      modifies this`currentPage
      ensures Valid()
      ensures !old(IsFirstPage()) ==> currentPage == old(currentPage) - 1
      ensures old(IsFirstPage()) ==> currentPage == old(currentPage)
    {
      if currentPage > 0 {
        currentPage := currentPage - 1;
      }
    }

    method SkipToEnd()
      requires Valid()
      modifies this`currentPage
      ensures Valid()
      ensures IsLastPage()
    {
      currentPage := |onboardingPages| - 1;
    }

    /** Marks the onboarding complete and records the completion flag in the store. */
    method CompleteOnboarding()
      modifies this`isOnboardingComplete, userDefaults
      ensures isOnboardingComplete
      ensures userDefaults.entries == old(userDefaults.entries)[OnboardingCompletedKey := BoolValue(true)]
    {
      isOnboardingComplete := true;
      userDefaults.Set(BoolValue(true), OnboardingCompletedKey);
    }
  }
}
