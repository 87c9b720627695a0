/**
 * Language courses: a course is a sequence of lessons, a lesson a sequence of
 * exercises; and the three bundled sample courses.
 */
module CourseModel {
  import opened Foundation

  datatype CourseDifficulty = Beginner | Intermediate | Advanced {
    function RawValue(): string {
      match this
      case Beginner => "Beginner"
      case Intermediate => "Intermediate"
      case Advanced => "Advanced"
    }
  }

  const AllCourseDifficulties: seq<CourseDifficulty> := [Beginner, Intermediate, Advanced]

  datatype ExerciseType = MultipleChoice | FillInBlank | Pronunciation | Translation {
    function RawValue(): string {
      match this
      case MultipleChoice => "Multiple Choice"
      case FillInBlank => "Fill in the Blank"
      case Pronunciation => "Pronunciation"
      case Translation => "Translation"
    }
  }

  datatype Exercise = Exercise(
    id: Uuid,
    question: string,
    options: seq<string>,
    correctAnswer: int,
    explanation: string,
    exerciseType: ExerciseType)

  datatype Lesson = Lesson(
    id: Uuid,
    title: string,
    content: string,
    exercises: seq<Exercise>,
    isCompleted: bool,
    duration: int)  // minutes

  datatype Course = Course(
    id: Uuid,
    title: string,
    language: string,
    description: string,
    difficulty: CourseDifficulty,
    lessons: seq<Lesson>,
    progress: real,
    estimatedTime: string,
    flag: string)

  const SampleCourses: seq<Course> := [
    Course(
      201,
      "Spanish Essentials",
      "Spanish",
      "Learn the fundamentals of Spanish with real-life scenarios",
      Beginner,
      [
        Lesson(
          211,
          "Greetings & Introductions",
          "Learn how to greet people and introduce yourself in Spanish",
          [
            Exercise(
              212,
              "How do you say 'Hello' in Spanish?",
              ["Hola", "Adiós", "Gracias", "Por favor"],
              0,
              "'Hola' is the most common way to say hello in Spanish",
              MultipleChoice)
          ],
          false,
          15)
      ],
      0.0,
      "2 weeks",
      "🇪🇸"),
    Course(
      202,
      "Business French",
      "French",
      "Professional French for business communication",
      Intermediate,
      [
        Lesson(
          221,
          "Business Meetings",
          "Learn professional vocabulary for business meetings",
          [
            Exercise(
              222,
              "How do you say 'meeting' in French?",
              ["Réunion", "Bureau", "Travail", "Projet"],
              0,
              "'Réunion' means meeting in French",
              MultipleChoice)
          ],
          false,
          20)
      ],
      0.0,
      "3 weeks",
      "🇫🇷"),
    Course(
      203,
      "Japanese Culture & Language",
      "Japanese",
      "Immerse yourself in Japanese culture while learning the language",
      Advanced,
      [
        Lesson(
          231,
          "Honorific Language",
          "Understanding keigo (honorific language) in Japanese",
          [
            Exercise(
              232,
              "Which is the polite form of 'to eat'?",
              ["食べる", "召し上がる", "飲む", "見る"],
              1,
              "召し上がる (meshiagaru) is the honorific form of 'to eat'",
              MultipleChoice)
          ],
          false,
          25)
      ],
      0.0,
      "4 weeks",
      "🇯🇵")
  ]

  /**
   * Three sample courses, one per difficulty, each with a single unfinished
   * lesson holding one multiple-choice exercise whose answer is among its
   * options, and each starting at progress 0.
   */
  lemma SampleCoursesShape()
    ensures |SampleCourses| == 3
    ensures forall i :: 0 <= i < 3 ==> SampleCourses[i].difficulty == AllCourseDifficulties[i]
    ensures forall c :: c in SampleCourses ==>
      && c.progress == 0.0
      && |c.lessons| == 1
      && !c.lessons[0].isCompleted
      && |c.lessons[0].exercises| == 1
      && c.lessons[0].exercises[0].exerciseType == MultipleChoice
      && 0 <= c.lessons[0].exercises[0].correctAnswer < |c.lessons[0].exercises[0].options|
  {
  }

  /** The sample lessons last 15, 20 and 25 minutes. */
  lemma SampleLessonDurations()
    ensures |SampleCourses| == 3
    ensures forall c :: c in SampleCourses ==> |c.lessons| == 1
    ensures [SampleCourses[0].lessons[0].duration, SampleCourses[1].lessons[0].duration,
             SampleCourses[2].lessons[0].duration] == [15, 20, 25]
  {
  }

  /** The ids of the sample courses, lessons and exercises are pairwise distinct. */
  lemma SampleCourseIdsDistinct()
    ensures var ids := seq(|SampleCourses|, i requires 0 <= i < |SampleCourses| => SampleCourses[i].id)
                     + [SampleCourses[0].lessons[0].id, SampleCourses[1].lessons[0].id, SampleCourses[2].lessons[0].id]
                     + [SampleCourses[0].lessons[0].exercises[0].id, SampleCourses[1].lessons[0].exercises[0].id,
                        SampleCourses[2].lessons[0].exercises[0].id];
      forall i, j :: 0 <= i < j < |ids| ==> ids[i] != ids[j]
  {
  }

  /** `DifficultyLevel` and `ExerciseType` cases have pairwise distinct raw values. */
  lemma CourseEnumsDistinct()
    ensures forall a: CourseDifficulty, b: CourseDifficulty :: a != b ==> a.RawValue() != b.RawValue()
    ensures forall a: ExerciseType, b: ExerciseType :: a != b ==> a.RawValue() != b.RawValue()
  {
  }
}
