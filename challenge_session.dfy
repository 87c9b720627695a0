/**
 * The entertainment challenge session: a timed quiz over one challenge's
 * questions, with a per-question countdown, a score that grows by base points
 * plus a time bonus for every correct answer, and the leaderboard shown beside it.
 *
 * The repeating one-second timer becomes the `Tick` method, which the timer
 * would call while it is scheduled (`isTimerActive`).
 */
module ChallengeSession {
  import opened Foundation
  import opened ChallengeModel
  import opened ProgressStore

  datatype LeaderboardEntry = LeaderboardEntry(id: Uuid, username: string, points: int, level: int)

  // ---------------------------------------------------------------------------
  // The leaderboard order

  predicate SortedByPointsDescending(s: seq<LeaderboardEntry>) {
    forall i, j :: 0 <= i < j < |s| ==> s[i].points >= s[j].points
  }

  /** Inserts an entry into a list sorted by points, highest first. */
  function InsertByPoints(e: LeaderboardEntry, s: seq<LeaderboardEntry>): (r: seq<LeaderboardEntry>)
    requires SortedByPointsDescending(s)
    ensures SortedByPointsDescending(r)
    ensures forall x :: x in r ==> x == e || x in s
    ensures multiset(r) == multiset(s) + multiset{e}
  {
    if s == [] || s[0].points <= e.points then [e] + s
    else
      assert s == [s[0]] + s[1..];
      var rest := InsertByPoints(e, s[1..]);
      HeadKeepsLead(s[0], s[1..], e, rest);
      [s[0]] + rest
  }

  /** A head with at least the points of every later entry and of the inserted one stays in front. */
  lemma HeadKeepsLead(h: LeaderboardEntry, tail: seq<LeaderboardEntry>, e: LeaderboardEntry, rest: seq<LeaderboardEntry>)
    requires SortedByPointsDescending([h] + tail) && SortedByPointsDescending(rest)
    requires h.points >= e.points
    requires forall x :: x in rest ==> x == e || x in tail
    ensures SortedByPointsDescending([h] + rest)
  {
    forall x | x in tail ensures h.points >= x.points {
      var k :| 0 <= k < |tail| && tail[k] == x;
      assert ([h] + tail)[0] == h && ([h] + tail)[k + 1] == x;
    }
    var r := [h] + rest;
    forall i, j | 0 <= i < j < |r| ensures r[i].points >= r[j].points {
      if i == 0 {
        assert r[j] in rest;
      } else {
        assert r[i] == rest[i - 1] && r[j] == rest[j - 1];
      }
    }
  }

  /**
   * `leaderboard.sorted { $0.points > $1.points }`: the same entries, highest
   * points first. The relative order of entries with equal points is left open
   * by the library; this definition fixes one.
   */
  function SortByPointsDescending(s: seq<LeaderboardEntry>): (r: seq<LeaderboardEntry>)
    ensures SortedByPointsDescending(r)
    ensures multiset(r) == multiset(s)
  {
    if s == [] then []
    else
      assert s == [s[0]] + s[1..];
      InsertByPoints(s[0], SortByPointsDescending(s[1..]))
  }

  // ---------------------------------------------------------------------------
  // Scoring

  /**
   * What `calculateQuestionPoints` needs of the selected challenge in order
   * not to trap: a question count to divide the points by, and a non-zero
   * time limit, without which the bonus is infinite or not a number and its
   * conversion to `Int` fails.
   */
  predicate Scorable(selected: Option<EntertainmentChallenge>) {
    selected.Some? ==> |selected.value.questions| > 0 && selected.value.timeLimit != 0
  }

  /** The points a correct answer is worth before the time bonus. */
  function BasePoints(c: EntertainmentChallenge): (b: int)
    requires |c.questions| > 0
    ensures c.points >= 0 ==> 0 <= b && b * |c.questions| <= c.points < b * |c.questions| + |c.questions|
    ensures c.points < 0 ==> b <= 0 && b * |c.questions| - |c.questions| < c.points <= b * |c.questions|
  {
    Quot(c.points, |c.questions|)
  }

  /** Swift's truncating division agrees with Dafny's on a non-negative dividend and a positive divisor. */
  lemma QuotOfNonNegative(a: int, b: int)
    requires 0 <= a && 0 < b
    ensures Quot(a, b) == a / b
  {
  }

  /** From `q * d <= k * d` with `d > 0`: `q <= k`. */
  lemma CancelPositiveFactor(q: int, k: int, d: int)
    requires 0 < d && q * d <= k * d
    ensures q <= k
  {
  }

  /** From `q * d < k * d` with `d > 0`: `q < k`. */
  lemma CancelPositiveFactorStrict(q: int, k: int, d: int)
    requires 0 < d && q * d < k * d
    ensures q < k
  {
  }

  lemma DivExact(k: int, d: int)
    requires 0 < d
    ensures (k * d) / d == k
  {
    var q, r := (k * d) / d, (k * d) % d;
    assert k * d == q * d + r && 0 <= r < d;
    CancelPositiveFactor(q, k, d);
    CancelPositiveFactorStrict(k, q + 1, d);
  }

  /**
   * `Int(Double(timeRemaining) / Double(timeLimit) * 50)`: fifty times the
   * fraction of the time left, truncated toward zero.
   */
  function TimeBonus(timeRemaining: int, timeLimit: int): (b: int)
    requires timeLimit != 0
    ensures 0 < timeLimit && 0 <= timeRemaining ==> b * timeLimit <= 50 * timeRemaining < (b + 1) * timeLimit
    ensures 0 < timeLimit && 0 <= timeRemaining <= timeLimit ==> 0 <= b <= 50
    ensures timeRemaining == timeLimit ==> b == 50
    ensures timeRemaining == 0 ==> b == 0
  {
    BonusFacts(timeRemaining, timeLimit);
    Quot(50 * timeRemaining, timeLimit)
  }

  lemma BonusFacts(t: int, limit: int)
    requires limit != 0
    ensures 0 < limit && 0 <= t ==>
      Quot(50 * t, limit) * limit <= 50 * t < (Quot(50 * t, limit) + 1) * limit
    ensures 0 < limit && 0 <= t <= limit ==> 0 <= Quot(50 * t, limit) <= 50
    ensures t == limit ==> Quot(50 * t, limit) == 50
    ensures t == 0 ==> Quot(50 * t, limit) == 0
  {
    var q := Quot(50 * t, limit);
    if 0 < limit && 0 <= t {
      QuotOfNonNegative(50 * t, limit);
      assert 50 * t == limit * q + (50 * t) % limit;
      assert (q + 1) * limit == q * limit + limit;
      if t <= limit {
        CancelPositiveFactor(q, 50, limit);
      }
    }
    if t == limit {
      assert Abs(50 * t) == 50 * Abs(limit);
      DivExact(50, Abs(limit));
    }
  }

  /** Less time left never earns a larger bonus. */
  lemma TimeBonusMonotone(t1: int, t2: int, timeLimit: int)
    requires 0 < timeLimit && 0 <= t1 <= t2
    ensures TimeBonus(t1, timeLimit) <= TimeBonus(t2, timeLimit)
  {
    var b1, b2 := TimeBonus(t1, timeLimit), TimeBonus(t2, timeLimit);
    CancelPositiveFactorStrict(b1, b2 + 1, timeLimit);
  }

  /**
   * `calculateQuestionPoints`: nothing without a selected challenge; otherwise
   * the base points plus a bonus of at most 50, the full 50 for an answer given
   * with the whole time left and none once the time has run out.
   */
  function QuestionPoints(selected: Option<EntertainmentChallenge>, timeRemaining: int): (p: int)
    requires Scorable(selected)
    ensures selected.None? ==> p == 0
    ensures selected.Some? && 0 < selected.value.timeLimit && 0 <= timeRemaining <= selected.value.timeLimit ==>
      BasePoints(selected.value) <= p <= BasePoints(selected.value) + 50
    ensures selected.Some? && timeRemaining == selected.value.timeLimit ==> p == BasePoints(selected.value) + 50
    ensures selected.Some? && timeRemaining == 0 ==> p == BasePoints(selected.value)
  {
    match selected
    case None => 0
    case Some(c) => BasePoints(c) + TimeBonus(timeRemaining, c.timeLimit)
  }

  /**
   * A challenge worth 150 points over two questions with a 120-second limit
   * (the first sample challenge) pays 125 for an immediate correct answer and
   * 100 for one given half-way through the countdown.
   */
  lemma QuestionPointsExample(c: EntertainmentChallenge)
    requires c.points == 150 && |c.questions| == 2 && c.timeLimit == 120
    ensures QuestionPoints(Some(c), 120) == 125
    ensures QuestionPoints(Some(c), 60) == 100
  {
    assert Quot(150, 2) == 75;
    assert Quot(50 * 60, 120) == 25;
  }

  // ---------------------------------------------------------------------------
  // Filters

  function ChallengesByType(challenges: seq<EntertainmentChallenge>, t: ChallengeType): (r: seq<EntertainmentChallenge>)
    ensures forall i :: 0 <= i < |r| ==> r[i].challengeType == t
    ensures forall c: EntertainmentChallenge :: c.challengeType == t ==> multiset(r)[c] == multiset(challenges)[c]
  {
    var r := Filter(challenges, (c: EntertainmentChallenge) => c.challengeType == t);
    forall i | 0 <= i < |r| ensures r[i].challengeType == t {
      assert multiset(r)[r[i]] > 0;
    }
    r
  }

  function ChallengesByLanguage(challenges: seq<EntertainmentChallenge>, language: string): (r: seq<EntertainmentChallenge>)
    ensures forall i :: 0 <= i < |r| ==> r[i].language == language
    ensures forall c: EntertainmentChallenge :: c.language == language ==> multiset(r)[c] == multiset(challenges)[c]
  {
    var r := Filter(challenges, (c: EntertainmentChallenge) => c.language == language);
    forall i | 0 <= i < |r| ensures r[i].language == language {
      assert multiset(r)[r[i]] > 0;
    }
    r
  }

  function ChallengesByDifficulty(challenges: seq<EntertainmentChallenge>, d: ChallengeDifficulty): (r: seq<EntertainmentChallenge>)
    ensures forall i :: 0 <= i < |r| ==> r[i].difficulty == d
    ensures forall c: EntertainmentChallenge :: c.difficulty == d ==> multiset(r)[c] == multiset(challenges)[c]
  {
    var r := Filter(challenges, (c: EntertainmentChallenge) => c.difficulty == d);
    forall i | 0 <= i < |r| ensures r[i].difficulty == d {
      assert multiset(r)[r[i]] > 0;
    }
    r
  }

  // ---------------------------------------------------------------------------
  // The session

  class EntertainmentChallengeViewModel {
    var selectedChallenge: Option<EntertainmentChallenge>
    var currentQuestion: Option<ChallengeQuestion>
    var currentQuestionIndex: int
    var selectedAnswer: Option<int>
    var showingResult: bool
    var isCorrect: bool
    var score: int
    var timeRemaining: int
    var isTimerActive: bool
    var challengeCompleted: bool
    var leaderboard: seq<LeaderboardEntry>
    const dataService: DataService

    /**
     * The question index stays within the selected challenge's questions and
     * the current question is the one it points at; the countdown never goes
     * below zero (unless the time limit itself is negative) nor above the limit;
     * without a selected challenge there is no question and no timer.
     */
    ghost predicate Valid()
      reads this
    {
      && 0 <= currentQuestionIndex
      && (selectedChallenge.None? ==>
            currentQuestionIndex == 0 && currentQuestion.None? && !isTimerActive && timeRemaining == 0)
      && (selectedChallenge.Some? ==>
            var c := selectedChallenge.value;
            && (|c.questions| == 0 ==> currentQuestionIndex == 0)
            && (|c.questions| > 0 ==>
                  currentQuestionIndex < |c.questions| && currentQuestion == Some(c.questions[currentQuestionIndex]))
            && timeRemaining <= c.timeLimit
            && (0 <= timeRemaining || timeRemaining == c.timeLimit))
    }

    constructor(service: DataService)
      ensures dataService == service
      ensures selectedChallenge.None? && currentQuestion.None? && currentQuestionIndex == 0
      ensures selectedAnswer.None? && !showingResult && !isCorrect && score == 0 && timeRemaining == 0
      ensures !isTimerActive && !challengeCompleted && leaderboard == []
      ensures Valid()
    {
      selectedChallenge := None;
      currentQuestion := None;
      currentQuestionIndex := 0;
      selectedAnswer := None;
      showingResult := false;
      isCorrect := false;
      score := 0;
      timeRemaining := 0;
      isTimerActive := false;
      challengeCompleted := false;
      leaderboard := [];
      dataService := service;
    }

    /** The leaderboard fetch delivering its entries: they are kept sorted by points, highest first. */
    method ReceiveLeaderboard(fetched: seq<LeaderboardEntry>)
      modifies this`leaderboard
      ensures SortedByPointsDescending(leaderboard)
      ensures multiset(leaderboard) == multiset(fetched)
    {
      leaderboard := SortByPointsDescending(fetched);
    }

    /** The challenge fetch delivering its challenges: the service adopts and saves them. */
    method ReceiveChallenges(fetched: seq<EntertainmentChallenge>)
      modifies dataService`entertainmentChallenges, dataService.userDefaults
      ensures dataService.entertainmentChallenges == fetched
      ensures dataService.userDefaults.entries ==
        old(dataService.userDefaults.entries)[ChallengesKey := DataValue(ChallengesData(fetched))]
    {
      dataService.entertainmentChallenges := fetched;
      dataService.SaveEntertainmentChallenges();
    }

    /**
     * Selects the challenge and restarts the session: first question, no
     * score, the full time limit, and the countdown running when there is a
     * question to show. Without questions the previous question and timer
     * state are left as they were.
     */
    method StartChallenge(challenge: EntertainmentChallenge)
      requires Valid()
      modifies this`selectedChallenge, this`currentQuestionIndex, this`score, this`challengeCompleted,
               this`timeRemaining, this`currentQuestion, this`isTimerActive
      ensures Valid()
      ensures selectedChallenge == Some(challenge) && currentQuestionIndex == 0 && score == 0
      ensures !challengeCompleted && timeRemaining == challenge.timeLimit
      ensures |challenge.questions| > 0 ==> currentQuestion == Some(challenge.questions[0]) && isTimerActive
      ensures |challenge.questions| == 0 ==>
        currentQuestion == old(currentQuestion) && isTimerActive == old(isTimerActive)
    {
      selectedChallenge := Some(challenge);
      currentQuestionIndex := 0;
      score := 0;
      challengeCompleted := false;
      timeRemaining := challenge.timeLimit;
      if |challenge.questions| > 0 {
        currentQuestion := Some(challenge.questions[0]);
        StartTimer();
      }
    }

    method StartTimer()
      modifies this`isTimerActive
      ensures isTimerActive
    {
      isTimerActive := true;
    }

    method StopTimer()
      modifies this`isTimerActive
      ensures !isTimerActive
    {
      isTimerActive := false;
    }

    /** One second of the countdown: a second less while time is left, otherwise time is up. */
    method Tick()
      requires Valid() && isTimerActive
      modifies this`timeRemaining, this`isTimerActive, this`showingResult, this`isCorrect, this`selectedAnswer
      ensures Valid()
      ensures old(timeRemaining) > 0 ==>
        && timeRemaining == old(timeRemaining) - 1 && isTimerActive
        && showingResult == old(showingResult) && isCorrect == old(isCorrect) && selectedAnswer == old(selectedAnswer)
      ensures old(timeRemaining) <= 0 ==>
        timeRemaining == old(timeRemaining) && !isTimerActive && showingResult && !isCorrect && selectedAnswer.None?
    {
      if timeRemaining > 0 {
        timeRemaining := timeRemaining - 1;
      } else {
        TimeUp();
      }
    }

    /** Time is up: the countdown stops and the question counts as answered wrongly, with no answer selected. */
    method TimeUp()
      modifies this`isTimerActive, this`showingResult, this`isCorrect, this`selectedAnswer
      ensures !isTimerActive && showingResult && !isCorrect && selectedAnswer.None?
    {
      StopTimer();
      showingResult := true;
      isCorrect := false;
      selectedAnswer := None;
    }

    /**
     * Answers the current question: the result is shown, the countdown stops,
     * and a correct answer adds the question's points to the score. Without a
     * current question nothing happens.
     */
    method SubmitAnswer(answer: int)
      requires Valid()
      requires currentQuestion.Some? && answer == currentQuestion.value.correctAnswer ==> Scorable(selectedChallenge)
      modifies this`selectedAnswer, this`isCorrect, this`showingResult, this`score, this`isTimerActive
      ensures Valid()
      ensures old(currentQuestion).None? ==>
        && selectedAnswer == old(selectedAnswer) && isCorrect == old(isCorrect) && showingResult == old(showingResult)
        && score == old(score) && isTimerActive == old(isTimerActive)
      ensures old(currentQuestion).Some? ==>
        && selectedAnswer == Some(answer)
        && (isCorrect <==> answer == old(currentQuestion).value.correctAnswer)
        && showingResult && !isTimerActive
        && score == old(score) + (if isCorrect then QuestionPoints(selectedChallenge, timeRemaining) else 0)
    {
      if currentQuestion.None? {
        return;
      }
      var question := currentQuestion.value;
      selectedAnswer := Some(answer);
      isCorrect := answer == question.correctAnswer;
      showingResult := true;
      if isCorrect {
        score := score + QuestionPoints(selectedChallenge, timeRemaining);
      }
      StopTimer();
    }

    /**
     * Moves to the next question with a fresh countdown, or, after the last
     * one, completes the challenge. Without a selected challenge nothing happens.
     */
    method NextQuestion()
      requires Valid()
      modifies this`showingResult, this`selectedAnswer, this`currentQuestionIndex, this`currentQuestion,
               this`timeRemaining, this`isTimerActive, this`challengeCompleted,
               dataService`userProgress, dataService.userDefaults
      ensures Valid()
      ensures old(selectedChallenge).None? ==>
        && showingResult == old(showingResult) && selectedAnswer == old(selectedAnswer)
        && currentQuestionIndex == old(currentQuestionIndex) && currentQuestion == old(currentQuestion)
        && timeRemaining == old(timeRemaining) && isTimerActive == old(isTimerActive)
        && challengeCompleted == old(challengeCompleted)
        && dataService.userProgress == old(dataService.userProgress)
        && dataService.userDefaults.entries == old(dataService.userDefaults.entries)
      ensures old(selectedChallenge).Some? ==>
        var c := old(selectedChallenge).value;
        && !showingResult && selectedAnswer.None?
        && (old(currentQuestionIndex) < |c.questions| - 1 ==>
              && currentQuestionIndex == old(currentQuestionIndex) + 1
              && currentQuestion == Some(c.questions[currentQuestionIndex])
              && timeRemaining == c.timeLimit && isTimerActive
              && challengeCompleted == old(challengeCompleted)
              && dataService.userProgress == old(dataService.userProgress)
              && dataService.userDefaults.entries == old(dataService.userDefaults.entries))
        && (old(currentQuestionIndex) >= |c.questions| - 1 ==>
              && currentQuestionIndex == old(currentQuestionIndex) && currentQuestion == old(currentQuestion)
              && timeRemaining == old(timeRemaining)
              && challengeCompleted && !isTimerActive
              && dataService.userProgress == old(dataService.userProgress).WithChallengeScore(c.id, score)
              && dataService.userDefaults.entries ==
                   old(dataService.userDefaults.entries)[ProgressKey := DataValue(ProgressData(dataService.userProgress))])
    {
      if selectedChallenge.None? {
        return;
      }
      var challenge := selectedChallenge.value;
      showingResult := false;
      selectedAnswer := None;
      if currentQuestionIndex < |challenge.questions| - 1 {
        currentQuestionIndex := currentQuestionIndex + 1;
        currentQuestion := Some(challenge.questions[currentQuestionIndex]);
        timeRemaining := challenge.timeLimit;
        StartTimer();
      } else {
        CompleteChallenge();
      }
    }

    /**
     * Marks the challenge completed, stops the countdown and records the score
     * with the progress store, which adds it to the total points again on every
     * replay. Without a selected challenge nothing happens.
     */
    method CompleteChallenge()
      requires Valid()
      modifies this`challengeCompleted, this`isTimerActive, dataService`userProgress, dataService.userDefaults
      ensures Valid()
      ensures old(selectedChallenge).None? ==>
        && challengeCompleted == old(challengeCompleted) && isTimerActive == old(isTimerActive)
        && dataService.userProgress == old(dataService.userProgress)
        && dataService.userDefaults.entries == old(dataService.userDefaults.entries)
      ensures old(selectedChallenge).Some? ==>
        && challengeCompleted && !isTimerActive
        && dataService.userProgress == old(dataService.userProgress).WithChallengeScore(selectedChallenge.value.id, score)
        && dataService.userDefaults.entries ==
             old(dataService.userDefaults.entries)[ProgressKey := DataValue(ProgressData(dataService.userProgress))]
    {
      if selectedChallenge.None? {
        return;
      }
      var challenge := selectedChallenge.value;
      challengeCompleted := true;
      StopTimer();
      dataService.AddChallengeScore(challenge.id, score);
    }

    /** Returns every session field to its initial value and stops the countdown; the leaderboard stays. */
    method ResetChallenge()
      modifies this`selectedChallenge, this`currentQuestion, this`currentQuestionIndex, this`selectedAnswer,
               this`showingResult, this`isCorrect, this`score, this`timeRemaining, this`challengeCompleted,
               this`isTimerActive
      ensures Valid()
      ensures selectedChallenge.None? && currentQuestion.None? && currentQuestionIndex == 0
      ensures selectedAnswer.None? && !showingResult && !isCorrect && score == 0 && timeRemaining == 0
      ensures !challengeCompleted && !isTimerActive
    {
      selectedChallenge := None;
      currentQuestion := None;
      currentQuestionIndex := 0;
      selectedAnswer := None;
      showingResult := false;
      isCorrect := false;
      score := 0;
      timeRemaining := 0;
      challengeCompleted := false;
      StopTimer();
    }
  }
}
