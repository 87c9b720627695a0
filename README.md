# LinguaLearn core model

A Dafny model of the core of LinguaLearn (`dafoma_67`), an iOS language-learning app. The model covers:

- **Progress store.** The shared `DataService` holds four pieces of state: the language courses, the business skills, the entertainment challenges and the user's progress. It mirrors each one into `UserDefaults` under its own key.
- **View models.** Four view models drive the app's screens:
  - course lessons, advanced exercise by exercise;
  - business-skill modules, completed scenario by scenario;
  - timed entertainment quizzes with a one-second countdown, time-bonus scoring and a leaderboard;
  - the onboarding pager.
- **Data and formatting.** The value types with their bundled sample data, and the small formatting helpers the view models provide.

The model takes the source's form:

- Swift structs and enums become datatypes.
- `DataService`, `UserDefaults` and the four `ObservableObject` view models become classes. Their fields are updated in place, and each method's `modifies` clause names exactly what the Swift method writes.
- The pure helpers (filters, scoring, level arithmetic, string formatting) become functions. Where a function only computes, its properties are stated by lemmas beside it: a reader that inverts it, a law it obeys, or the closed form it reaches.

Modules and files:

- `Foundation` (`foundation.dfy`): Swift's truncating `Int` division and remainder, `filter`, `firstIndex(where:)`, and the clamped progress step `min(p + 1.0 / n, 1.0)`.
- `Formatting` (`formatting.dfy`): `formatTime` and `formatDuration`, each with a reader that recovers the number from its rendering.
- `ChallengeModel`, `CourseModel`, `SkillModel`: the records, enums and sample data.
- `ProgressStore`: `UserProgress`, the key-value store, decoding with fall-back to samples, `DataService`, and replacing a record by id.
- `ChallengeSession`, `CourseSession`, `SkillSession`, `OnboardingFlow`: one view model each, with its pure helpers.

Modelling choices:

- **UUIDs.** A UUID is a natural number. A `UUID()` drawn inside an operation is passed in as a `newId` parameter.
- **Doubles.** A `Double` is a `real`.
- **Traps.** Where Swift traps (division by zero, converting an infinite `Double` to `Int`), the operation has a precondition.
- **Network fetches.** The Combine sinks that deliver fetch results become `Receive…` methods that take the fetched values.
- **Shared service.** `DataService.shared` becomes a `dataService` constant given to each view model's constructor.

### Where the model follows the code

- **No clamping in updates.** `updateCourseProgress` and `updateSkillProgress` store the progress they are given without clamping it. The callers clamp with `min(…, 1.0)` before calling.
- **No clamping on load.** A decoded record's progress is adopted as stored.
- **The replaced record gets a fresh id.** The update rebuilds the record with the memberwise initializer, and `let id = UUID()` draws a fresh id. `CoursesWithProgress` and `SkillsWithProgress` state this outright. `StaleCourseIdIsNoOp` and `StaleSkillIdIsNoOp` prove the consequence: while the view model keeps its selected course or skill, a second completion finds no record with the old id and changes nothing.

## Model

| member | source | states |
|---|---|---|
| Foundation.Quot | dafoma_67/Services/DataService.swift:170 | Swift's `Int` `/`: the quotient's magnitude is the floor of \|a\|/\|b\| and its sign is that of a·b (truncation toward zero). |
| Foundation.Rem | dafoma_67/ViewModels/EntertainmentChallengeViewModel.swift:254 | Swift's `Int` `%`: a == b·Quot(a,b) + r, \|r\| < \|b\|, and r is zero or has the sign of a. |
| Foundation.StepTowardOne | dafoma_67/ViewModels/LanguageCourseViewModel.swift:88 | `min(p + 1.0 / Double(n), 1.0)` is never above one and never below p (for p ≤ 1). It is exactly one for n == 0, where the division gives +infinity. Otherwise it is p + 1/n or the cap. |
| Foundation.StepsFromZeroValue | dafoma_67/ViewModels/LanguageCourseViewModel.swift:79-89 | Answering k of a lesson's n exercises from progress 0 gives exactly k/n, and one from the n-th answer on, whether the answers were right or wrong. |
| Foundation.Filter | dafoma_67/ViewModels/LanguageCourseViewModel.swift:119-125 | `filter` keeps every element that satisfies the predicate as often as it occurs, and no other element. |
| Foundation.FilterAppend | dafoma_67/ViewModels/EntertainmentChallengeViewModel.swift:174-184 | `filter` keeps the input order: it distributes over concatenation. |
| Foundation.FirstIndexWhere | dafoma_67/Services/DataService.swift:104 | `firstIndex(where:)` returns the least index satisfying the predicate, and None exactly when no element does. |
| Formatting.NatToString | dafoma_67/ViewModels/EntertainmentChallengeViewModel.swift:255 | String interpolation of a non-negative `Int`: one or more decimal digits, no leading zero, a single digit exactly below ten. |
| Formatting.ParseNatToString | dafoma_67/ViewModels/EntertainmentChallengeViewModel.swift:255 | Reading the digits of a rendered number gives the number back. |
| Formatting.IntToStringReadsBack | dafoma_67/ViewModels/LanguageCourseViewModel.swift:144 | String interpolation of any `Int`, negative ones included, reads back as that `Int`: it loses nothing. |
| Formatting.ZeroPad2 | dafoma_67/ViewModels/EntertainmentChallengeViewModel.swift:255 | `%02d` gives at least two characters; for 0..99 it gives exactly two digits that read back as the value. |
| Formatting.FormatTimeShape | dafoma_67/ViewModels/EntertainmentChallengeViewModel.swift:252-256 | For every non-negative number of seconds, `formatTime` renders the whole minutes, a colon and exactly two digits of seconds. |
| Formatting.FormatTimeReadsBack | dafoma_67/ViewModels/EntertainmentChallengeViewModel.swift:252-256 | For every non-negative number of seconds, the `formatTime` rendering reads back to exactly that number: the rendering loses nothing. |
| Formatting.FormatDurationReadsBack | dafoma_67/ViewModels/LanguageCourseViewModel.swift:142-154 | For every non-negative number of minutes, "m min", "Nh" or "Nh Mm" reads back to exactly that number (the identical `formatDuration` at BusinessSkillViewModel.swift:164-176 included). |
| Formatting.ReadsBackMinutes | dafoma_67/ViewModels/LanguageCourseViewModel.swift:143-144 | Below an hour the rendering is exactly the minutes followed by " min", and it reads back. |
| Formatting.ReadsBackWholeHours | dafoma_67/ViewModels/LanguageCourseViewModel.swift:146-149 | A whole number of hours renders as exactly the hours (at least one) followed by "h", and it reads back. |
| Formatting.ReadsBackHoursAndMinutes | dafoma_67/ViewModels/LanguageCourseViewModel.swift:146-151 | Otherwise the rendering is exactly the hours (at least one), "h ", the remaining minutes (1 to 59) and "m", and it reads back. |
| ChallengeModel.ChallengeEnumsDistinct | dafoma_67/Models/ChallengeModel.swift:23-35 | `ChallengeType.allCases` (the list `getAllChallengeTypes` returns) has five cases and `DifficultyLevel` has three. Each list holds every case, and the raw values are pairwise distinct. |
| ChallengeModel.SampleChallengesShape | dafoma_67/Models/ChallengeModel.swift:57-157 | Three sample challenges, each with two questions of four options. |
| ChallengeModel.SamplePointsAndTimeLimits | dafoma_67/Models/ChallengeModel.swift:57-157 | Points and time limits are (150,120), (100,90) and (200,150), so a correct answer's base points are 75, 50 and 100. |
| ChallengeModel.SampleChallengesPlayable | dafoma_67/Models/ChallengeModel.swift:57-157 | Every sample challenge has questions, a positive time limit and correct answers within the options, so scoring it never traps. |
| ChallengeModel.SampleChallengeIdsDistinct | dafoma_67/Models/ChallengeModel.swift:10-45 | The sample challenges' ids, and all their questions' ids, are pairwise distinct. |
| CourseModel.SampleCoursesShape | dafoma_67/Models/CourseModel.swift:55-134 | Three sample courses, one per difficulty in order, each at progress 0 with one unfinished lesson holding one multiple-choice exercise whose answer is among its options. |
| CourseModel.SampleLessonDurations | dafoma_67/Models/CourseModel.swift:55-134 | The sample lessons last 15, 20 and 25 minutes. |
| CourseModel.SampleCourseIdsDistinct | dafoma_67/Models/CourseModel.swift:10-51 | The sample course, lesson and exercise ids are pairwise distinct. |
| CourseModel.CourseEnumsDistinct | dafoma_67/Models/CourseModel.swift:21-50 | The `DifficultyLevel` and `ExerciseType` cases have pairwise distinct raw values. |
| SkillModel.SampleSkillsShape | dafoma_67/Models/SkillModel.swift:51-130 | Three sample skills in the first three categories, each at progress 0 with one unfinished module of one scenario with three key phrases and three tips. |
| SkillModel.SampleModuleDurations | dafoma_67/Models/SkillModel.swift:51-130 | The sample modules last 30, 45 and 40 minutes. |
| SkillModel.SampleSkillIdsDistinct | dafoma_67/Models/SkillModel.swift:10-47 | The sample skill, module and scenario ids are pairwise distinct. |
| SkillModel.SkillCategoriesDistinct | dafoma_67/Models/SkillModel.swift:20-27 | `SkillCategory.allCases` (the list `getAllCategories` returns) holds all six cases, without repeats, with pairwise distinct raw values. |
| ProgressStore.StoreKeysDistinct | dafoma_67/Services/DataService.swift:20-23 | The four store keys, and the onboarding flag's key, are pairwise distinct, so saving one collection never overwrites another. |
| ProgressStore.UserProgress.Level | dafoma_67/Services/DataService.swift:169-171 | For non-negative points, the level is the l ≥ 1 with (l-1)·1000 ≤ points < l·1000; negative totals truncate toward zero. |
| ProgressStore.UserProgress.NextLevelProgress | dafoma_67/Services/DataService.swift:173-178 | (level − 1) plus the fraction equals points/1000, and for non-negative points the fraction lies in [0, 1). |
| ProgressStore.LevelExample | dafoma_67/Services/DataService.swift:169-178 | 2500 points are level 3, half-way to level 4. |
| ProgressStore.UserProgress.WithChallengeScore | dafoma_67/Services/DataService.swift:134-138 | Recording a score maps the challenge to it (replacing any earlier score) and keeps every other challenge's score. The total grows by the score and nothing else changes. |
| ProgressStore.ReplayCountsTwice | dafoma_67/Services/DataService.swift:134-138 | Recording a challenge twice keeps only the later score in the map, but the total counts both scores. |
| ProgressStore.CourseIndex | dafoma_67/Services/DataService.swift:104 | The first index whose course has the id, and None exactly when no course has it. |
| ProgressStore.SkillIndex | dafoma_67/Services/DataService.swift:120 | The same lookup for business skills. |
| ProgressStore.CoursesWithProgress | dafoma_67/Services/DataService.swift:103-117 | Same length. An absent id changes nothing. Otherwise only the first matching course changes: it gets the given, unclamped progress and a fresh id, and every other field is kept. |
| ProgressStore.SkillsWithProgress | dafoma_67/Services/DataService.swift:119-132 | The same replacement for business skills. |
| ProgressStore.CourseUpdateKeepsIdsDistinct | dafoma_67/Services/DataService.swift:105-114 | If the course ids are distinct and the fresh id is unused, the ids stay distinct after the update. |
| ProgressStore.SkillUpdateKeepsIdsDistinct | dafoma_67/Services/DataService.swift:121-129 | The same for skill ids. |
| ProgressStore.StaleCourseIdIsNoOp | dafoma_67/Services/DataService.swift:103-117 | After an update by id, no course carries that id any more, so a second update by the same id is a no-op. |
| ProgressStore.StaleSkillIdIsNoOp | dafoma_67/Services/DataService.swift:119-132 | The same for skills. |
| ProgressStore.RemoveThenWrite | dafoma_67/Services/DataService.swift:141-156 | Removing the four keys and then writing all four leaves the same store as writing them outright. |
| ProgressStore.UserDefaults.constructor | dafoma_67/Services/DataService.swift:19 | The store starts with the given entries. |
| ProgressStore.UserDefaults.Set | dafoma_67/Services/DataService.swift:80 | `set(_:forKey:)` writes that one key. |
| ProgressStore.UserDefaults.RemoveObject | dafoma_67/Services/DataService.swift:142-145 | `removeObject(forKey:)` removes that one key. |
| ProgressStore.ReadAfterWrite | dafoma_67/Services/DataService.swift:38 | `data(forKey:)` after `set(_:forKey:)`: the written key yields the written blob (nothing if a flag was written there), and every other key yields what it yielded before. |
| ProgressStore.ReadAfterRemove | dafoma_67/Services/DataService.swift:142-145 | `data(forKey:)` after `removeObject(forKey:)`: the removed key yields nothing, every other key what it yielded before. |
| ProgressStore.LoadedIsStoredOrSeed | dafoma_67/Services/DataService.swift:37-75 | Each load yields its fall-back (the samples, or a fresh `UserProgress()`) or exactly the value whose encoding the store holds under that collection's key (ids kept; see Ids on decode). |
| ProgressStore.LoadIgnoresOtherKeys | dafoma_67/Services/DataService.swift:20-23 | A write under any other key leaves every load result unchanged: each collection depends on its own key only. |
| ProgressStore.SaveThenLoad | dafoma_67/Services/DataService.swift:78-100 | Loading what a save wrote gives back exactly the saved value, for all four collections (ids kept; see Ids on decode). |
| ProgressStore.DataService.constructor | dafoma_67/Services/DataService.swift:25-27 | `init` loads each collection from the store, falling back to the samples, and leaves the store in sync with memory. |
| ProgressStore.DataService.LoadData | dafoma_67/Services/DataService.swift:30-35 | Each collection is its load result. The store afterwards holds exactly the in-memory values under the four keys and nothing else changes. |
| ProgressStore.DataService.LoadCourses | dafoma_67/Services/DataService.swift:37-45 | Adopts the decoded courses and leaves the store alone. If they do not decode, it seeds the samples and writes them back. |
| ProgressStore.DataService.LoadBusinessSkills | dafoma_67/Services/DataService.swift:47-55 | The same for skills. |
| ProgressStore.DataService.LoadEntertainmentChallenges | dafoma_67/Services/DataService.swift:57-65 | The same for challenges. |
| ProgressStore.DataService.LoadUserProgress | dafoma_67/Services/DataService.swift:67-75 | The same for the progress, with a fresh `UserProgress()` as the fall-back. |
| ProgressStore.DataService.SaveCourses | dafoma_67/Services/DataService.swift:78-82 | Writes the courses under their key and nothing else. |
| ProgressStore.DataService.SaveBusinessSkills | dafoma_67/Services/DataService.swift:84-88 | Writes the skills under their key. |
| ProgressStore.DataService.SaveEntertainmentChallenges | dafoma_67/Services/DataService.swift:90-94 | Writes the challenges under their key. |
| ProgressStore.DataService.SaveUserProgress | dafoma_67/Services/DataService.swift:96-100 | Writes the progress under its key. |
| ProgressStore.DataService.UpdateCourseProgress | dafoma_67/Services/DataService.swift:103-117 | The courses become `CoursesWithProgress` of the old ones. They are saved only when the id was found, and store–memory agreement is preserved. |
| ProgressStore.DataService.UpdateSkillProgress | dafoma_67/Services/DataService.swift:119-132 | The same for skills. |
| ProgressStore.DataService.AddChallengeScore | dafoma_67/Services/DataService.swift:134-138 | The progress becomes `WithChallengeScore` of the old progress and is saved. |
| ProgressStore.DataService.ResetAllData | dafoma_67/Services/DataService.swift:141-156 | Every collection returns to its sample value and the progress to zero. The store ends holding exactly these under the four keys, with other keys untouched. |
| ChallengeSession.InsertByPoints | dafoma_67/ViewModels/EntertainmentChallengeViewModel.swift:77 | Inserting into a list sorted by points, highest first, keeps it sorted and adds exactly that entry. |
| ChallengeSession.SortByPointsDescending | dafoma_67/ViewModels/EntertainmentChallengeViewModel.swift:76-78 | The leaderboard sort returns a permutation of its input, ordered by points, highest first. |
| ChallengeSession.BasePoints | dafoma_67/ViewModels/EntertainmentChallengeViewModel.swift:132 | `challenge.points / challenge.questions.count`, truncated toward zero: for non-negative points the largest b with b·count ≤ points; for negative points the smallest b with points ≤ b·count. |
| ChallengeSession.TimeBonus | dafoma_67/ViewModels/EntertainmentChallengeViewModel.swift:133 | `Int(Double(t)/Double(L)*50)` is the largest b with b·L ≤ 50·t. It lies in 0..50 for 0 ≤ t ≤ L, is 50 with the full time left and 0 with none. |
| ChallengeSession.TimeBonusMonotone | dafoma_67/ViewModels/EntertainmentChallengeViewModel.swift:129-136 | Answering later never earns a larger bonus. |
| ChallengeSession.QuestionPoints | dafoma_67/ViewModels/EntertainmentChallengeViewModel.swift:129-136 | Without a challenge, 0. Otherwise between the base points (points ÷ question count) and base + 50, with exactly base + 50 for an immediate answer and base once time is up. |
| ChallengeSession.QuestionPointsExample | dafoma_67/ViewModels/EntertainmentChallengeViewModel.swift:129-136 | For a 150-point, two-question, 120-second challenge: 125 points with the full time left, 100 at half time. |
| ChallengeSession.ChallengesByType | dafoma_67/ViewModels/EntertainmentChallengeViewModel.swift:174-176 | Only challenges of the type, and every one of them as often as it occurs. |
| ChallengeSession.ChallengesByLanguage | dafoma_67/ViewModels/EntertainmentChallengeViewModel.swift:178-180 | Only challenges in the language, and all of them. |
| ChallengeSession.ChallengesByDifficulty | dafoma_67/ViewModels/EntertainmentChallengeViewModel.swift:182-184 | Only challenges of the difficulty, and all of them. |
| ChallengeSession.EntertainmentChallengeViewModel.constructor | dafoma_67/ViewModels/EntertainmentChallengeViewModel.swift:13-37 | All published state starts empty, zero or false, and the session invariant holds. |
| ChallengeSession.EntertainmentChallengeViewModel.ReceiveLeaderboard | dafoma_67/ViewModels/EntertainmentChallengeViewModel.swift:76-78 | The leaderboard becomes the fetched entries, sorted by points, highest first. |
| ChallengeSession.EntertainmentChallengeViewModel.ReceiveChallenges | dafoma_67/ViewModels/EntertainmentChallengeViewModel.swift:58-62 | The service adopts the fetched challenges and saves them under their key. |
| ChallengeSession.EntertainmentChallengeViewModel.StartChallenge | dafoma_67/ViewModels/EntertainmentChallengeViewModel.swift:83-94 | Selects the challenge at question 0 with score 0 and the full time limit. It starts the countdown only when there is a first question. |
| ChallengeSession.EntertainmentChallengeViewModel.StartTimer | dafoma_67/ViewModels/EntertainmentChallengeViewModel.swift:96-97 | The countdown is active. |
| ChallengeSession.EntertainmentChallengeViewModel.Tick | dafoma_67/ViewModels/EntertainmentChallengeViewModel.swift:98-106 | One timer firing: one second less while time is left. Otherwise time is up: the timer stops and a wrong result with no answer is shown. The invariant (0 ≤ time left ≤ limit) is kept. |
| ChallengeSession.EntertainmentChallengeViewModel.StopTimer | dafoma_67/ViewModels/EntertainmentChallengeViewModel.swift:109-113 | The countdown is inactive. |
| ChallengeSession.EntertainmentChallengeViewModel.SubmitAnswer | dafoma_67/ViewModels/EntertainmentChallengeViewModel.swift:115-127 | With a current question: records the answer, sets `isCorrect` exactly when it is the correct one, shows the result and stops the timer. The score grows by `QuestionPoints` on a correct answer only. Without a question nothing changes. |
| ChallengeSession.EntertainmentChallengeViewModel.NextQuestion | dafoma_67/ViewModels/EntertainmentChallengeViewModel.swift:138-152 | Advances to the next question with a fresh countdown. After the last question it completes the challenge, recording the score with the service. |
| ChallengeSession.EntertainmentChallengeViewModel.TimeUp | dafoma_67/ViewModels/EntertainmentChallengeViewModel.swift:154-159 | Stops the timer and shows a wrong result with no answer selected. |
| ChallengeSession.EntertainmentChallengeViewModel.CompleteChallenge | dafoma_67/ViewModels/EntertainmentChallengeViewModel.swift:161-172 | Marks the challenge completed, stops the timer and adds the score through `AddChallengeScore`, which saves it. Without a challenge nothing changes. |
| ChallengeSession.EntertainmentChallengeViewModel.ResetChallenge | dafoma_67/ViewModels/EntertainmentChallengeViewModel.swift:258-269 | Every session field returns to its initial value and the timer stops. The leaderboard is kept. |
| CourseSession.CoursesByDifficulty | dafoma_67/ViewModels/LanguageCourseViewModel.swift:119-121 | Only courses of the difficulty, and all of them. |
| CourseSession.CoursesByLanguage | dafoma_67/ViewModels/LanguageCourseViewModel.swift:123-125 | Only courses in the language, and all of them. |
| CourseSession.StrLessIrreflexive | dafoma_67/ViewModels/LanguageCourseViewModel.swift:128 | The string order used by `sorted()` is irreflexive. |
| CourseSession.StrLessTransitive | dafoma_67/ViewModels/LanguageCourseViewModel.swift:128 | The string order is transitive. |
| CourseSession.StrLessTotal | dafoma_67/ViewModels/LanguageCourseViewModel.swift:128 | Of two different strings, one is below the other. |
| CourseSession.InsertUnique | dafoma_67/ViewModels/LanguageCourseViewModel.swift:128 | Adding a language to a strictly ascending list keeps it strictly ascending and adds exactly that language. |
| CourseSession.AvailableLanguages | dafoma_67/ViewModels/LanguageCourseViewModel.swift:127-129 | Strictly ascending, so each language appears once, and a language is listed exactly when some course is taught in it. |
| CourseSession.AscendingListIsUnique | dafoma_67/ViewModels/LanguageCourseViewModel.swift:127-129 | Two strictly ascending lists with the same elements are equal. |
| CourseSession.AvailableLanguagesIgnoresOrder | dafoma_67/ViewModels/LanguageCourseViewModel.swift:127-129 | The language list depends only on which courses there are, not on their order. |
| CourseSession.LanguageCourseViewModel.constructor | dafoma_67/ViewModels/LanguageCourseViewModel.swift:13-32 | Nothing is selected, progress is 0 and the invariant holds. |
| CourseSession.LanguageCourseViewModel.ReceiveCourses | dafoma_67/ViewModels/LanguageCourseViewModel.swift:53-57 | The service adopts the fetched courses and saves them under their key. |
| CourseSession.LanguageCourseViewModel.SelectCourse | dafoma_67/ViewModels/LanguageCourseViewModel.swift:62-67 | Selects the course and starts its first lesson if it has one; otherwise the lesson state is unchanged. |
| CourseSession.LanguageCourseViewModel.StartLesson | dafoma_67/ViewModels/LanguageCourseViewModel.swift:69-77 | The lesson starts at exercise 0 with progress 0. An empty lesson keeps the previous exercise. |
| CourseSession.LessonProgressAfterAnswers | dafoma_67/ViewModels/LanguageCourseViewModel.swift:87-88 | With the exercise count as the partition, k answers from progress 0 leave the lesson at k/count, and at one from the last answer on; a lesson without exercises is at one after the first answer; without a lesson the partition is 1. |
| CourseSession.LanguageCourseViewModel.SubmitAnswer | dafoma_67/ViewModels/LanguageCourseViewModel.swift:79-89 | Records the answer and sets `isCorrect` exactly when it is right. Lesson progress advances by one exercise's share, capped at one and never decreasing, whether the answer was right or wrong. Without an exercise nothing changes. |
| CourseSession.LanguageCourseViewModel.NextExercise | dafoma_67/ViewModels/LanguageCourseViewModel.swift:91-103 | Moves to the next exercise and writes nothing to the store, or after the last one completes the lesson with exactly `CompleteLesson`'s store write. Without a lesson nothing changes. |
| CourseSession.LanguageCourseViewModel.CompleteLesson | dafoma_67/ViewModels/LanguageCourseViewModel.swift:105-117 | The selected course's stored record is advanced by one lesson's share (capped at one) and the lesson state is cleared. The store changes only under the courses key, and only when the selected id was found; every other key, "onboarding_completed" included, is untouched. When ids are distinct, the selected course's id then names no stored course. |
| CourseSession.LanguageCourseViewModel.ResetProgress | dafoma_67/ViewModels/LanguageCourseViewModel.swift:156-164 | Clears the selection and the lesson state; `isCorrect` is kept, as in the source. |
| SkillSession.ScenarioRatio | dafoma_67/ViewModels/BusinessSkillViewModel.swift:82-83 | The completed share: +infinity exactly for a module without scenarios, otherwise a value v with v·total = completed. It is at least one exactly when completed ≥ total. |
| SkillSession.SampleScenarioCompletesModule | dafoma_67/ViewModels/BusinessSkillViewModel.swift:78-91 | In every sample skill, completing the one scenario completes its module. |
| SkillSession.ModuleAwardFollowsDuration | dafoma_67/ViewModels/BusinessSkillViewModel.swift:106-109 | No module awards 0. A module's award is even and strictly grows with its duration, and a module of non-negative duration awards at least as much as none. |
| SkillSession.SampleModuleAwards | dafoma_67/ViewModels/BusinessSkillViewModel.swift:106-109 | Two points per minute: the sample modules award 60, 90 and 80 points. |
| SkillSession.SkillsByCategory | dafoma_67/ViewModels/BusinessSkillViewModel.swift:111-113 | Only skills of the category, and all of them. |
| SkillSession.BusinessSkillViewModel.constructor | dafoma_67/ViewModels/BusinessSkillViewModel.swift:13-30 | Nothing is selected, progress is 0, the completed set is empty and the invariant holds. |
| SkillSession.BusinessSkillViewModel.ReceiveSkills | dafoma_67/ViewModels/BusinessSkillViewModel.swift:51-55 | The service adopts the fetched skills and saves them under their key. |
| SkillSession.BusinessSkillViewModel.SelectSkill | dafoma_67/ViewModels/BusinessSkillViewModel.swift:60-65 | Selects the skill and starts its first module if it has one. |
| SkillSession.BusinessSkillViewModel.StartModule | dafoma_67/ViewModels/BusinessSkillViewModel.swift:67-71 | The module starts with progress 0 and no completed scenarios. |
| SkillSession.BusinessSkillViewModel.SelectScenario | dafoma_67/ViewModels/BusinessSkillViewModel.swift:73-76 | The scenario is current and its detail is shown. |
| SkillSession.BusinessSkillViewModel.CompleteScenario | dafoma_67/ViewModels/BusinessSkillViewModel.swift:78-91 | Adds the scenario to the completed set. With a module, progress becomes the completed share, which never falls back below one once reached. The module completes whenever the share is at least one, with the same store writes as `CompleteModule`; otherwise the service and the store are untouched. |
| SkillSession.BusinessSkillViewModel.CompleteModule | dafoma_67/ViewModels/BusinessSkillViewModel.swift:93-104 | The selected skill's record advances by one module's share (capped). The total grows by the module's points and no challenge score changes. The skills are saved only when the id was found, the progress always. The selected skill's id then names no stored skill, and for a module of non-negative duration the total never falls. |
| SkillSession.BusinessSkillViewModel.ResetProgress | dafoma_67/ViewModels/BusinessSkillViewModel.swift:199-206 | Clears the selection, the module state and the completed set. |
| OnboardingFlow.OnboardingPageCount | dafoma_67/ViewModels/OnboardingViewModel.swift:15-51 | There are five onboarding pages. |
| OnboardingFlow.OnboardingViewModel.constructor | dafoma_67/ViewModels/OnboardingViewModel.swift:12-51 | Starts on the first page, which is not the last, not complete, with the five pages. |
| OnboardingFlow.OnboardingViewModel.Progress | dafoma_67/ViewModels/OnboardingViewModel.swift:93-95 | (page + 1) / page count: in (0, 1], and exactly 1 on the last page. |
| OnboardingFlow.OnboardingViewModel.NextPage | dafoma_67/ViewModels/OnboardingViewModel.swift:53-61 | Off the last page, advances one page and writes nothing. On the last page it stays put, completes the onboarding and stores the flag. The page stays in range. |
| OnboardingFlow.OnboardingViewModel.PreviousPage | dafoma_67/ViewModels/OnboardingViewModel.swift:63-69 | Off the first page, goes back one page. On the first page it stays put. |
| OnboardingFlow.OnboardingViewModel.SkipToEnd | dafoma_67/ViewModels/OnboardingViewModel.swift:71-75 | Lands on the last page. |
| OnboardingFlow.OnboardingViewModel.CompleteOnboarding | dafoma_67/ViewModels/OnboardingViewModel.swift:77-83 | Marks onboarding complete and stores `true` under "onboarding_completed", leaving every other key alone. |

## Left out

- **SwiftUI views.** The views, `ContentView`, the app entry point and `withAnimation` are presentation; `withAnimation` only wraps state changes that are modelled.
- **Network fetches.** `NetworkService` is not part of this model. Fetch results arrive as the arguments of the `Receive…` methods. The loading flags, the error messages and the failure path of each fetch are not modelled.
- **Leaderboard refresh.** The refresh that `completeChallenge` starts is a network fetch; its result is `ReceiveLeaderboard`.
- **Combine bindings.** The view models' mirrored `courses`, `businessSkills` and `challenges` arrays are not separate fields. The filters take the list as an argument, and the `Receive…` methods update the service.
- **Timer scheduling.** `Tick` models one firing of the scheduled timer, and a single flag stands for "a timer is scheduled". `nextQuestion` (EntertainmentChallengeViewModel.swift:138-152) and `startChallenge` through `startTimer` (EntertainmentChallengeViewModel.swift:83-97) schedule a new timer without invalidating one that may still be running; the extra timer that would tick in parallel is not modelled. Through the views neither path meets a live timer: `nextQuestion` is offered only while a result is shown, after `submitAnswer` or `timeUp` stopped the timer, and `startChallenge` is offered only with no selected challenge, after `resetChallenge` stopped it.
- **JSON encoding.** A stored blob is abstracted to the value it encodes. The silent failure of an encode in the save methods is not modelled.
- **Ids on decode.** Swift's decoder does not decode the `let id = UUID()` properties, so reloaded records get fresh ids. The model's decode keeps the ids.
- **Dates.** `Date` fields (`lastStudyDate`, timestamps) are not modelled.
- **Presentation tables.** Colours, icons and flags are not modelled: `getLanguageFlag`, `getTypeIcon`, `getTypeColor`, `getDifficultyColor`, `getCategoryIcon`, `getCategoryColor`, `getProgressColor`, and the onboarding page colours.
- **Floating point.** `Double` arithmetic is exact real arithmetic, so rounding in the progress steps and the time bonus is not modelled.
- **Integer width.** `Int` is unbounded. Swift's overflow trap is not modelled.
- ChallengeSession.SortByPointsDescending: fixes one order among entries with equal points, where Swift's `sorted(by:)` leaves that order unspecified.
- CourseSession.StrLessTotal: `String`'s `<` is modelled as lexicographic order on characters. Unicode canonical equivalence is not modelled.
- ChallengeSession.QuestionPoints: Swift traps when a challenge has no questions (integer division by zero) or a zero time limit (converting an infinite or NaN `Double` to `Int`). These cases are excluded by preconditions rather than modelled as traps.
