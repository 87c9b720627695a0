/**
 * Entertainment challenges: timed multiple-choice quizzes about films, music,
 * literature, culture and history, and the three bundled sample challenges.
 * Every record's `id` is drawn by its initializer; here it is a constructor
 * argument, and the samples carry fixed, pairwise distinct ids (a static
 * sample array is built once per run).
 */
module ChallengeModel {
  import opened Foundation

  datatype ChallengeType = Movie | Music | Literature | Culture | History {
    function RawValue(): string {
      match this
      case Movie => "Movie"
      case Music => "Music"
      case Literature => "Literature"
      case Culture => "Culture"
      case History => "History"
    }
  }

  /** `ChallengeType.allCases`, in declaration order. */
  const AllChallengeTypes: seq<ChallengeType> := [Movie, Music, Literature, Culture, History]

  datatype ChallengeDifficulty = Easy | Medium | Hard {
    function RawValue(): string {
      match this
      case Easy => "Easy"
      case Medium => "Medium"
      case Hard => "Hard"
    }
  }

  const AllChallengeDifficulties: seq<ChallengeDifficulty> := [Easy, Medium, Hard]

  datatype MediaReference = MediaReference(
    title: string,
    year: Option<int>,
    creator: string,
    genre: string,
    description: string)

  datatype ChallengeQuestion = ChallengeQuestion(
    id: Uuid,
    question: string,
    options: seq<string>,
    correctAnswer: int,
    explanation: string,
    culturalNote: Option<string>)

  datatype EntertainmentChallenge = EntertainmentChallenge(
    id: Uuid,
    title: string,
    challengeType: ChallengeType,
    language: string,
    description: string,
    culturalContext: string,
    questions: seq<ChallengeQuestion>,
    difficulty: ChallengeDifficulty,
    points: int,
    timeLimit: int,  // seconds
    mediaReference: Option<MediaReference>)

  predicate AnswerInRange(q: ChallengeQuestion) {
    0 <= q.correctAnswer < |q.options|
  }

  /**
   * What a challenge session needs of a challenge: a first question to show,
   * a positive time limit for the countdown and the time bonus, and a correct
   * answer that is one of the options.
   */
  predicate Playable(c: EntertainmentChallenge) {
    && |c.questions| > 0
    && c.timeLimit > 0
    && forall q :: q in c.questions ==> AnswerInRange(q)
  }

  const SampleChallenges: seq<EntertainmentChallenge> := [
    EntertainmentChallenge(
      101,
      "Studio Ghibli Cinema",
      Movie,
      "Japanese",
      "Test your knowledge of Studio Ghibli films and Japanese culture",
      "Studio Ghibli films reflect Japanese values, folklore, and environmental consciousness",
      [
        ChallengeQuestion(
          111,
          "In 'Spirited Away', what does Chihiro's name change to?",
          ["Sen", "Rin", "Yuki", "Hana"],
          0,
          "Yubaba changes Chihiro's name to Sen (千) as part of her control over the spirit world workers",
          Some("Name changing represents loss of identity, a common theme in Japanese folklore")),
        ChallengeQuestion(
          112,
          "What does 'totoro' mean in Japanese?",
          ["Forest spirit", "Big belly", "Friendly giant", "It's a made-up word"],
          3,
          "Miyazaki created the word 'totoro' specifically for the character",
          Some("Many Japanese words in anime are created for artistic effect"))
      ],
      Medium,
      150,
      120,
      Some(MediaReference(
        "My Neighbor Totoro",
        Some(1988),
        "Hayao Miyazaki",
        "Animation",
        "A beloved Japanese animated film about two sisters who discover forest spirits"))),
    EntertainmentChallenge(
      102,
      "French Chanson Classics",
      Music,
      "French",
      "Explore French music culture through classic chansons",
      "French chanson represents the poetic soul of French culture and language",
      [
        ChallengeQuestion(
          121,
          "Who sang 'La Vie en Rose'?",
          ["Brigitte Bardot", "Édith Piaf", "Françoise Hardy", "Sylvie Vartan"],
          1,
          "Édith Piaf wrote and performed this iconic song in 1947",
          Some("Piaf is considered the voice of France and represents resilience through hardship")),
        ChallengeQuestion(
          122,
          "What does 'chanson' literally mean?",
          ["Dance", "Song", "Story", "Love"],
          1,
          "'Chanson' simply means 'song' in French",
          Some("French chanson is characterized by lyrical sophistication and emotional depth"))
      ],
      Easy,
      100,
      90,
      Some(MediaReference(
        "La Vie en Rose",
        Some(1947),
        "Édith Piaf",
        "Chanson",
        "One of the most famous French songs of all time"))),
    EntertainmentChallenge(
      103,
      "Spanish Cinema Golden Age",
      Movie,
      "Spanish",
      "Discover the masterpieces of Spanish and Latin American cinema",
      "Spanish cinema reflects the rich cultural diversity of Spain and Latin America",
      [
        ChallengeQuestion(
          131,
          "Who directed 'El Laberinto del Fauno' (Pan's Labyrinth)?",
          ["Pedro Almodóvar", "Guillermo del Toro", "Luis Buñuel", "Alejandro Amenábar"],
          1,
          "Guillermo del Toro directed this acclaimed fantasy film in 2006",
          Some("The film blends Spanish Civil War history with dark fantasy elements")),
        ChallengeQuestion(
          132,
          "What does 'cine' mean in Spanish?",
          ["Theater", "Cinema", "Art", "Culture"],
          1,
          "'Cine' is short for 'cinematógrafo' and means cinema",
          Some("Spanish cinema has a rich tradition dating back to the early 1900s"))
      ],
      Hard,
      200,
      150,
      Some(MediaReference(
        "Pan's Labyrinth",
        Some(2006),
        "Guillermo del Toro",
        "Fantasy Drama",
        "A dark fantasy film set against the backdrop of the Spanish Civil War")))
  ]

  /** Three sample challenges of two questions each, every question with four options. */
  lemma SampleChallengesShape()
    ensures |SampleChallenges| == 3
    ensures forall c :: c in SampleChallenges ==> |c.questions| == 2
    ensures forall c, q :: c in SampleChallenges && q in c.questions ==> |q.options| == 4
  {
  }

  /** The sample (points, time limit) pairs, and the base points a correct answer is worth in each. */
  lemma SamplePointsAndTimeLimits()
    ensures |SampleChallenges| == 3
    ensures (SampleChallenges[0].points, SampleChallenges[0].timeLimit) == (150, 120)
    ensures (SampleChallenges[1].points, SampleChallenges[1].timeLimit) == (100, 90)
    ensures (SampleChallenges[2].points, SampleChallenges[2].timeLimit) == (200, 150)
    ensures Quot(SampleChallenges[0].points, |SampleChallenges[0].questions|) == 75
    ensures Quot(SampleChallenges[1].points, |SampleChallenges[1].questions|) == 50
    ensures Quot(SampleChallenges[2].points, |SampleChallenges[2].questions|) == 100
  {
  }

  /** Every sample challenge can be played: questions present, positive time limit, answers in range. */
  lemma SampleChallengesPlayable()
    ensures forall c :: c in SampleChallenges ==> Playable(c)
  {
  }

  /** The ids of the sample challenges and of all their questions are pairwise distinct. */
  lemma SampleChallengeIdsDistinct()
    ensures forall i, j :: 0 <= i < j < |SampleChallenges| ==> SampleChallenges[i].id != SampleChallenges[j].id
    ensures var qs := SampleChallenges[0].questions + SampleChallenges[1].questions + SampleChallenges[2].questions;
      forall i, j :: 0 <= i < j < |qs| ==> qs[i].id != qs[j].id
  {
  }

  /** `ChallengeType` has five cases and `DifficultyLevel` three, each with its own raw value. */
  lemma ChallengeEnumsDistinct()
    ensures |AllChallengeTypes| == 5 && forall t: ChallengeType :: t in AllChallengeTypes
    ensures forall a: ChallengeType, b: ChallengeType :: a != b ==> a.RawValue() != b.RawValue()
    ensures |AllChallengeDifficulties| == 3 && forall d: ChallengeDifficulty :: d in AllChallengeDifficulties
    ensures forall a: ChallengeDifficulty, b: ChallengeDifficulty :: a != b ==> a.RawValue() != b.RawValue()
  {
    forall t: ChallengeType ensures t in AllChallengeTypes {
      match t
      case Movie => assert AllChallengeTypes[0] == t;
      case Music => assert AllChallengeTypes[1] == t;
      case Literature => assert AllChallengeTypes[2] == t;
      case Culture => assert AllChallengeTypes[3] == t;
      case History => assert AllChallengeTypes[4] == t;
    }
    forall d: ChallengeDifficulty ensures d in AllChallengeDifficulties {
      match d
      case Easy => assert AllChallengeDifficulties[0] == d;
      case Medium => assert AllChallengeDifficulties[1] == d;
      case Hard => assert AllChallengeDifficulties[2] == d;
    }
  }
}
