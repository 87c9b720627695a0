/**
 * The language course session: a course is selected, its lessons are worked
 * through exercise by exercise, and completing a lesson advances the course's
 * progress in the data service by one lesson's share.
 */
module CourseSession {
  import opened Foundation
  import opened CourseModel
  import opened ProgressStore

  // ---------------------------------------------------------------------------
  // Filters

  function CoursesByDifficulty(courses: seq<Course>, d: CourseDifficulty): (r: seq<Course>)
    ensures forall i :: 0 <= i < |r| ==> r[i].difficulty == d
    ensures forall c: Course :: c.difficulty == d ==> multiset(r)[c] == multiset(courses)[c]
  {
    var r := Filter(courses, (c: Course) => c.difficulty == d);
    forall i | 0 <= i < |r| ensures r[i].difficulty == d {
      assert multiset(r)[r[i]] > 0;
    }
    r
  }

  function CoursesByLanguage(courses: seq<Course>, language: string): (r: seq<Course>)
    ensures forall i :: 0 <= i < |r| ==> r[i].language == language
    ensures forall c: Course :: c.language == language ==> multiset(r)[c] == multiset(courses)[c]
  {
    var r := Filter(courses, (c: Course) => c.language == language);
    forall i | 0 <= i < |r| ensures r[i].language == language {
      assert multiset(r)[r[i]] > 0;
    }
    r
  }

  // ---------------------------------------------------------------------------
  // The order of the language list

  /** `String`'s `<`, taken as the lexicographic order on characters. */
  predicate StrLess(a: string, b: string) {
    if |a| == 0 then |b| > 0
    else if |b| == 0 then false
    else a[0] < b[0] || (a[0] == b[0] && StrLess(a[1..], b[1..]))
  }

  lemma {:induction false} StrLessIrreflexive(a: string)
    ensures !StrLess(a, a)
  {
    if |a| > 0 {
      StrLessIrreflexive(a[1..]);
    }
  }

  lemma {:induction false} StrLessTransitive(a: string, b: string, c: string)
    requires StrLess(a, b) && StrLess(b, c)
    ensures StrLess(a, c)
  {
    if |a| > 0 && a[0] == b[0] && b[0] == c[0] {
      StrLessTransitive(a[1..], b[1..], c[1..]);
    }
  }

  lemma {:induction false} StrLessTotal(a: string, b: string)
    ensures a == b || StrLess(a, b) || StrLess(b, a)
  {
    if |a| > 0 && |b| > 0 && a[0] == b[0] {
      StrLessTotal(a[1..], b[1..]);
      if a[1..] == b[1..] {
        assert a == [a[0]] + a[1..] && b == [b[0]] + b[1..];
      }
    }
  }

  lemma StrLessAsymmetric(a: string, b: string)
    requires StrLess(a, b)
    ensures !StrLess(b, a) && a != b
  {
    StrLessIrreflexive(a);
    if StrLess(b, a) {
      StrLessTransitive(a, b, a);
    }
  }

  predicate StrictlyAscending(s: seq<string>) {
    forall i, j :: 0 <= i < j < |s| ==> StrLess(s[i], s[j])
  }

  /** A head below every element of a strictly ascending list extends it. */
  lemma AscendingCons(h: string, rest: seq<string>)
    requires StrictlyAscending(rest)
    requires forall y :: y in rest ==> StrLess(h, y)
    ensures StrictlyAscending([h] + rest)
  {
    var r := [h] + rest;
    forall i, j | 0 <= i < j < |r| ensures StrLess(r[i], r[j]) {
      if i == 0 {
        assert r[j] in rest;
      } else {
        assert r[i] == rest[i - 1] && r[j] == rest[j - 1];
      }
    }
  }

  /** The head of a strictly ascending list lies below everything after it. */
  lemma HeadBelowTail(s: seq<string>)
    requires StrictlyAscending(s) && |s| > 0
    ensures forall y :: y in s[1..] ==> StrLess(s[0], y)
  {
    forall y | y in s[1..] ensures StrLess(s[0], y) {
      var k :| 0 <= k < |s[1..]| && s[1..][k] == y;
      assert s[k + 1] == y;
    }
  }

  /** Adds a string to a strictly ascending list unless it is already there. */
  function InsertUnique(x: string, s: seq<string>): (r: seq<string>)
    requires StrictlyAscending(s)
    ensures StrictlyAscending(r)
    ensures forall y :: y in r <==> y == x || y in s
  {
    if s == [] then [x]
    else if x == s[0] then s
    else if StrLess(x, s[0]) then
      HeadBelowTail(s);
      LessThanHeadIsLessThanTail(x, s);
      AscendingCons(x, s);
      [x] + s
    else
      StrLessTotal(x, s[0]);
      var rest := InsertUnique(x, s[1..]);
      HeadBelowTail(s);
      AscendingCons(s[0], rest);
      assert s == [s[0]] + s[1..];
      [s[0]] + rest
  }

  lemma LessThanHeadIsLessThanTail(x: string, s: seq<string>)
    requires StrictlyAscending(s) && |s| > 0 && StrLess(x, s[0])
    requires forall y :: y in s[1..] ==> StrLess(s[0], y)
    ensures forall y :: y in s ==> StrLess(x, y)
  {
    forall y | y in s ensures StrLess(x, y) {
      if y != s[0] {
        assert s == [s[0]] + s[1..];
        StrLessTransitive(x, s[0], y);
      }
    }
  }

  /** Some course is taught in `language`. */
  predicate Offers(courses: seq<Course>, language: string) {
    exists c :: c in courses && c.language == language
  }

  lemma OffersCons(courses: seq<Course>)
    requires |courses| > 0
    ensures forall l :: Offers(courses, l) <==> l == courses[0].language || Offers(courses[1..], l)
  {
    forall l ensures Offers(courses, l) <==> l == courses[0].language || Offers(courses[1..], l) {
      if Offers(courses, l) {
        var c :| c in courses && c.language == l;
        if c != courses[0] {
          assert courses == [courses[0]] + courses[1..];
          assert c in courses[1..];
        }
      }
      if Offers(courses[1..], l) {
        var c :| c in courses[1..] && c.language == l;
        assert c in courses;
      }
      if l == courses[0].language {
        assert courses[0] in courses;
      }
    }
  }

  /**
   * `Array(Set(courses.map { $0.language })).sorted()`: every language some
   * course is taught in, once each, in ascending order.
   */
  function AvailableLanguages(courses: seq<Course>): (r: seq<string>)
    ensures StrictlyAscending(r)
    ensures forall l :: l in r <==> Offers(courses, l)
  {
    if courses == [] then []
    else
      OffersCons(courses);
      InsertUnique(courses[0].language, AvailableLanguages(courses[1..]))
  }

  lemma EmptyOrHasHead(s: seq<string>)
    ensures s == [] || s[0] in s
  {
  }

  /**
   * A strictly ascending list is determined by its elements: any other
   * strictly ascending list of the same languages is the same list, so the
   * language list does not depend on the order of the courses.
   */
  lemma {:induction false} AscendingListIsUnique(a: seq<string>, b: seq<string>)
    requires StrictlyAscending(a) && StrictlyAscending(b)
    requires forall y :: y in a <==> y in b
    ensures a == b
  {
    if a == [] {
      EmptyOrHasHead(b);
    } else {
      assert a[0] in a;
      assert b != [];
      assert b[0] in b;
      HeadBelowTail(a);
      HeadBelowTail(b);
      assert a == [a[0]] + a[1..] && b == [b[0]] + b[1..];
      if a[0] != b[0] {
        assert a[0] in b[1..] && b[0] in a[1..];
        StrLessAsymmetric(a[0], b[0]);
      }
      forall y ensures y in a[1..] <==> y in b[1..] {
        if y in a[1..] {
          StrLessAsymmetric(a[0], y);
          assert y in b && y != b[0];
        }
        if y in b[1..] {
          StrLessAsymmetric(b[0], y);
          assert y in a && y != a[0];
        }
      }
      AscendingListIsUnique(a[1..], b[1..]);
    }
  }

  /** The languages of the courses, whatever their order, e.g. after the catalogue is refreshed. */
  lemma AvailableLanguagesIgnoresOrder(courses: seq<Course>, reordered: seq<Course>)
    requires multiset(courses) == multiset(reordered)
    ensures AvailableLanguages(courses) == AvailableLanguages(reordered)
  {
    forall l ensures Offers(courses, l) <==> Offers(reordered, l) {
      if Offers(courses, l) {
        var c :| c in courses && c.language == l;
        assert c in multiset(reordered);
      }
      if Offers(reordered, l) {
        var c :| c in reordered && c.language == l;
        assert c in multiset(courses);
      }
    }
    AscendingListIsUnique(AvailableLanguages(courses), AvailableLanguages(reordered));
  }

  // ---------------------------------------------------------------------------
  // The session

  /** `currentLesson?.exercises.count ?? 1`: the number of parts an answer advances the lesson by. */
  function ExercisePartition(lesson: Option<Lesson>): nat {
    match lesson
    case None => 1
    case Some(l) => |l.exercises|
  }

  /**
   * Starting a lesson from zero, k answers leave its progress at k parts out of
   * its exercise count, and once every exercise has been answered it stays at
   * one; a lesson without exercises is complete after the first answer.
   */
  lemma {:induction false} LessonProgressAfterAnswers(lesson: Lesson, k: nat)
    ensures |lesson.exercises| > 0 && k <= |lesson.exercises| ==>
      StepsFromZero(ExercisePartition(Some(lesson)), k) == k as real / |lesson.exercises| as real
    ensures k >= |lesson.exercises| && k >= 1 ==> StepsFromZero(ExercisePartition(Some(lesson)), k) == 1.0
    ensures ExercisePartition(None) == 1
  {
    var n := ExercisePartition(Some(lesson));
    if n > 0 {
      StepsFromZeroValue(n, k);
    }
  }

  class LanguageCourseViewModel {
    var selectedCourse: Option<Course>
    var currentLesson: Option<Lesson>
    var currentExercise: Option<Exercise>
    var currentExerciseIndex: int
    var selectedAnswer: Option<int>
    var showingResult: bool
    var isCorrect: bool
    var lessonProgress: real
    const dataService: DataService

    /**
     * The lesson progress stays within [0, 1]; the exercise index stays within
     * the current lesson and the current exercise is the one it points at;
     * without a lesson there is no exercise.
     */
    ghost predicate Valid()
      reads this
    {
      && 0.0 <= lessonProgress <= 1.0
      && 0 <= currentExerciseIndex
      && (currentLesson.None? ==> currentExercise.None? && currentExerciseIndex == 0)
      && (currentLesson.Some? ==>
            var exercises := currentLesson.value.exercises;
            && (|exercises| == 0 ==> currentExerciseIndex == 0)
            && (|exercises| > 0 ==>
                  currentExerciseIndex < |exercises| && currentExercise == Some(exercises[currentExerciseIndex])))
    }

    constructor(service: DataService)
      ensures dataService == service
      ensures selectedCourse.None? && currentLesson.None? && currentExercise.None? && currentExerciseIndex == 0
      ensures selectedAnswer.None? && !showingResult && !isCorrect && lessonProgress == 0.0
      ensures Valid()
    {
      selectedCourse := None;
      currentLesson := None;
      currentExercise := None;
      currentExerciseIndex := 0;
      selectedAnswer := None;
      showingResult := false;
      isCorrect := false;
      lessonProgress := 0.0;
      dataService := service;
    }

    /** The course fetch delivering its courses: the service adopts and saves them. */
    method ReceiveCourses(fetched: seq<Course>)
      modifies dataService`courses, dataService.userDefaults
      ensures dataService.courses == fetched
      ensures dataService.userDefaults.entries ==
        old(dataService.userDefaults.entries)[CoursesKey := DataValue(CoursesData(fetched))]
    {
      dataService.courses := fetched;
      dataService.SaveCourses();
    }

    /** Selects the course and starts its first lesson, if it has one. */
    method SelectCourse(course: Course)
      requires Valid()
      modifies this`selectedCourse, this`currentLesson, this`currentExerciseIndex, this`lessonProgress,
               this`currentExercise
      ensures Valid()
      ensures selectedCourse == Some(course)
      ensures |course.lessons| > 0 ==>
        && currentLesson == Some(course.lessons[0]) && currentExerciseIndex == 0 && lessonProgress == 0.0
        && (|course.lessons[0].exercises| > 0 ==> currentExercise == Some(course.lessons[0].exercises[0]))
      ensures |course.lessons| == 0 ==>
        && currentLesson == old(currentLesson) && currentExerciseIndex == old(currentExerciseIndex)
        && lessonProgress == old(lessonProgress) && currentExercise == old(currentExercise)
    {
      selectedCourse := Some(course);
      if |course.lessons| > 0 {
        StartLesson(course.lessons[0]);
      }
    }

    /**
     * Starts the lesson at its first exercise with no progress. A lesson
     * without exercises leaves the previous exercise in place.
     */
    method StartLesson(lesson: Lesson)
      requires Valid()
      modifies this`currentLesson, this`currentExerciseIndex, this`lessonProgress, this`currentExercise
      ensures Valid()
      ensures currentLesson == Some(lesson) && currentExerciseIndex == 0 && lessonProgress == 0.0
      ensures |lesson.exercises| > 0 ==> currentExercise == Some(lesson.exercises[0])
      ensures |lesson.exercises| == 0 ==> currentExercise == old(currentExercise)
    {
      currentLesson := Some(lesson);
      currentExerciseIndex := 0;
      lessonProgress := 0.0;
      if |lesson.exercises| > 0 {
        currentExercise := Some(lesson.exercises[0]);
      }
    }

    /**
     * Answers the current exercise: the result is shown and the lesson
     * progress advances by one exercise's share, never past one, whether the
     * answer was right or not. Without a current exercise nothing happens.
     */
    method SubmitAnswer(answer: int)
      requires Valid()
      modifies this`selectedAnswer, this`isCorrect, this`showingResult, this`lessonProgress
      ensures Valid()
      ensures old(currentExercise).None? ==>
        && selectedAnswer == old(selectedAnswer) && isCorrect == old(isCorrect)
        && showingResult == old(showingResult) && lessonProgress == old(lessonProgress)
      ensures old(currentExercise).Some? ==>
        && selectedAnswer == Some(answer)
        && (isCorrect <==> answer == old(currentExercise).value.correctAnswer)
        && showingResult
        && lessonProgress == StepTowardOne(old(lessonProgress), ExercisePartition(currentLesson))
        && old(lessonProgress) <= lessonProgress
    {
      if currentExercise.None? {
        return;
      }
      var exercise := currentExercise.value;
      selectedAnswer := Some(answer);
      isCorrect := answer == exercise.correctAnswer;
      showingResult := true;
      lessonProgress := StepTowardOne(lessonProgress, ExercisePartition(currentLesson));
    }

    /**
     * Moves to the next exercise of the lesson, or, after the last one,
     * completes the lesson. Without a current lesson nothing happens.
     */
    method NextExercise(newId: Uuid)
      requires Valid()
      modifies this`showingResult, this`selectedAnswer, this`currentExerciseIndex, this`currentExercise,
               this`currentLesson, this`lessonProgress, dataService`courses, dataService.userDefaults
      ensures Valid()
      ensures old(currentLesson).None? ==>
        && showingResult == old(showingResult) && selectedAnswer == old(selectedAnswer)
        && currentExerciseIndex == old(currentExerciseIndex) && currentExercise == old(currentExercise)
        && currentLesson == old(currentLesson) && lessonProgress == old(lessonProgress)
        && dataService.courses == old(dataService.courses)
        && dataService.userDefaults.entries == old(dataService.userDefaults.entries)
      ensures old(currentLesson).Some? ==>
        var exercises := old(currentLesson).value.exercises;
        && !showingResult && selectedAnswer.None?
        && (old(currentExerciseIndex) < |exercises| - 1 ==>
              && currentExerciseIndex == old(currentExerciseIndex) + 1
              && currentExercise == Some(exercises[currentExerciseIndex])
              && currentLesson == old(currentLesson) && lessonProgress == old(lessonProgress)
              && dataService.courses == old(dataService.courses)
              && dataService.userDefaults.entries == old(dataService.userDefaults.entries))
        && (old(currentExerciseIndex) >= |exercises| - 1 && old(selectedCourse).Some? ==>
              var c := old(selectedCourse).value;
              && currentLesson.None? && currentExercise.None? && currentExerciseIndex == 0 && lessonProgress == 0.0
              && dataService.courses ==
                   CoursesWithProgress(old(dataService.courses), c.id, StepTowardOne(c.progress, |c.lessons|), newId)
              && dataService.userDefaults.entries ==
                   (if CourseIndex(old(dataService.courses), c.id).Some?
                    then old(dataService.userDefaults.entries)[CoursesKey := DataValue(CoursesData(dataService.courses))]
                    else old(dataService.userDefaults.entries)))
        && (old(currentExerciseIndex) >= |exercises| - 1 && old(selectedCourse).None? ==>
              && currentLesson == old(currentLesson) && currentExercise == old(currentExercise)
              && currentExerciseIndex == old(currentExerciseIndex) && lessonProgress == old(lessonProgress)
              && dataService.courses == old(dataService.courses)
              && dataService.userDefaults.entries == old(dataService.userDefaults.entries))
      ensures old(dataService.Synced()) ==> dataService.Synced()
    {
      if currentLesson.None? {
        return;
      }
      var lesson := currentLesson.value;
      showingResult := false;
      selectedAnswer := None;
      if currentExerciseIndex < |lesson.exercises| - 1 {
        currentExerciseIndex := currentExerciseIndex + 1;
        currentExercise := Some(lesson.exercises[currentExerciseIndex]);
      } else {
        CompleteLesson(newId);
      }
    }

    /**
     * Advances the selected course's progress by one lesson's share (never past
     * one; all the way for a course without lessons) and clears the lesson
     * state. The selected course keeps the id it was selected with, which the
     * updated record no longer carries: a later completion of another of its
     * lessons finds no course to update. Without a selected course nothing happens.
     */
    method CompleteLesson(newId: Uuid)
      requires Valid()
      modifies this`currentLesson, this`currentExercise, this`currentExerciseIndex, this`lessonProgress,
               dataService`courses, dataService.userDefaults
      ensures Valid()
      ensures old(selectedCourse).None? ==>
        && currentLesson == old(currentLesson) && currentExercise == old(currentExercise)
        && currentExerciseIndex == old(currentExerciseIndex) && lessonProgress == old(lessonProgress)
        && dataService.courses == old(dataService.courses)
        && dataService.userDefaults.entries == old(dataService.userDefaults.entries)
      ensures old(selectedCourse).Some? ==>
        var c := old(selectedCourse).value;
        && currentLesson.None? && currentExercise.None? && currentExerciseIndex == 0 && lessonProgress == 0.0
        && dataService.courses ==
             CoursesWithProgress(old(dataService.courses), c.id, StepTowardOne(c.progress, |c.lessons|), newId)
        && (DistinctCourseIds(old(dataService.courses)) && newId != c.id ==>
              CourseIndex(dataService.courses, selectedCourse.value.id).None?)
        && dataService.userDefaults.entries ==
             (if CourseIndex(old(dataService.courses), c.id).Some?
              then old(dataService.userDefaults.entries)[CoursesKey := DataValue(CoursesData(dataService.courses))]
              else old(dataService.userDefaults.entries))
      ensures old(dataService.Synced()) ==> dataService.Synced()
    {
      if selectedCourse.None? {
        return;
      }
      var course := selectedCourse.value;
      var newProgress := StepTowardOne(course.progress, |course.lessons|);
      if DistinctCourseIds(dataService.courses) && newId != course.id {
        StaleCourseIdIsNoOp(dataService.courses, course.id, newProgress, newId, newProgress, newId);
      }
      dataService.UpdateCourseProgress(course.id, newProgress, newId);
      currentLesson := None;
      currentExercise := None;
      currentExerciseIndex := 0;
      lessonProgress := 0.0;
    }

    /** Clears the selection and the lesson state; the last answer's correctness is kept. */
    method ResetProgress()
      modifies this`selectedCourse, this`currentLesson, this`currentExercise, this`currentExerciseIndex,
               this`selectedAnswer, this`showingResult, this`lessonProgress
      ensures Valid()
      ensures selectedCourse.None? && currentLesson.None? && currentExercise.None? && currentExerciseIndex == 0
      ensures selectedAnswer.None? && !showingResult && lessonProgress == 0.0
    {
      selectedCourse := None;
      currentLesson := None;
      currentExercise := None;
      currentExerciseIndex := 0;
      selectedAnswer := None;
      showingResult := false;
      lessonProgress := 0.0;
    }
  }
}
