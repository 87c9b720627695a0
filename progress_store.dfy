/**
 * The progress store: the shared `DataService` that holds the courses, business
 * skills, entertainment challenges and the user's progress, and mirrors each of
 * them into the persistent key-value store under its own key.
 *
 * The key-value store is a map from keys to stored values. What the JSON
 * encoder writes is abstracted to the value it encodes, and decoding is a
 * partial function, so a missing key or a value of the wrong shape falls back
 * to the sample data exactly as an unreadable blob does.
 */
module ProgressStore {
  import opened Foundation
  import opened CourseModel
  import opened SkillModel
  import opened ChallengeModel

  const CoursesKey: string := "saved_courses"
  const SkillsKey: string := "saved_skills"
  const ChallengesKey: string := "saved_challenges"
  const ProgressKey: string := "user_progress"
  /** Written by the onboarding flow into the same store. */
  const OnboardingCompletedKey: string := "onboarding_completed"

  /** The five keys are pairwise distinct, so writing one leaves the others alone. */
  lemma StoreKeysDistinct()
    ensures CoursesKey != SkillsKey && CoursesKey != ChallengesKey && CoursesKey != ProgressKey
    ensures SkillsKey != ChallengesKey && SkillsKey != ProgressKey && ChallengesKey != ProgressKey
    ensures OnboardingCompletedKey != CoursesKey && OnboardingCompletedKey != SkillsKey
    ensures OnboardingCompletedKey != ChallengesKey && OnboardingCompletedKey != ProgressKey
  {
    assert CoursesKey[6] == 'c' && SkillsKey[6] == 's' && ChallengesKey[6] == 'c' && ProgressKey[0] == 'u';
    assert CoursesKey[7] != ChallengesKey[7];
    assert OnboardingCompletedKey[0] == 'o';
  }

  datatype UserProgress = UserProgress(
    totalPoints: int,
    challengeScores: map<Uuid, int>,
    completedCourses: seq<Uuid>,
    completedSkills: seq<Uuid>,
    currentStreak: int,
    studyTimeMinutes: int)
  {
    /** One level per thousand points, starting at level 1 (Swift's truncating division). */
    function Level(): (l: int)
      ensures totalPoints >= 0 ==> l >= 1 && (l - 1) * 1000 <= totalPoints < l * 1000
      ensures totalPoints < 0 ==> l <= 1 && (l - 2) * 1000 < totalPoints <= (l - 1) * 1000
    {
      Quot(totalPoints, 1000) + 1
    }

    /**
     * The fraction of the current level already earned. Its denominator is the
     * width of a level, always exactly 1000 points, so the level and this
     * fraction together give the points in thousands.
     */
    function NextLevelProgress(): (r: real)
      ensures (Level() - 1) as real + r == totalPoints as real / 1000.0
      ensures totalPoints >= 0 ==> 0.0 <= r < 1.0
    {
      var currentLevelPoints := (Level() - 1) * 1000;
      var nextLevelPoints := Level() * 1000;
      var progressPoints := totalPoints - currentLevelPoints;
      assert nextLevelPoints - currentLevelPoints == 1000;
      progressPoints as real / (nextLevelPoints - currentLevelPoints) as real
    }

    /**
     * `addChallengeScore`: the score replaces any earlier score for the same
     * challenge, but is always added to the total.
     */
    function WithChallengeScore(challengeId: Uuid, score: int): (u: UserProgress)
      ensures challengeId in u.challengeScores && u.challengeScores[challengeId] == score
      ensures u.challengeScores.Keys == challengeScores.Keys + {challengeId}
      ensures forall k :: k in challengeScores && k != challengeId ==> u.challengeScores[k] == challengeScores[k]
      ensures u.totalPoints == totalPoints + score
      ensures u.(challengeScores := challengeScores, totalPoints := totalPoints) == this
    {
      this.(challengeScores := challengeScores[challengeId := score], totalPoints := totalPoints + score)
    }
  }

  /** `UserProgress()`: no points, no scores, nothing completed, no streak, no study time. */
  const NewUserProgress: UserProgress := UserProgress(0, map[], [], [], 0, 0)

  /** 2500 points is level 3, half-way to level 4. */
  lemma LevelExample()
    ensures NewUserProgress.(totalPoints := 2500).Level() == 3
    ensures NewUserProgress.(totalPoints := 2500).NextLevelProgress() == 0.5
  {
  }

  /**
   * Recording the same challenge twice keeps one entry, the later score, but
   * counts both scores toward the total: replaying a challenge adds its score again.
   */
  lemma {:induction false} ReplayCountsTwice(u: UserProgress, challengeId: Uuid, first: int, second: int)
    ensures var twice := u.WithChallengeScore(challengeId, first).WithChallengeScore(challengeId, second);
      && twice.challengeScores == u.WithChallengeScore(challengeId, second).challengeScores
      && twice.totalPoints == u.totalPoints + first + second
  {
    var twice := u.WithChallengeScore(challengeId, first).WithChallengeScore(challengeId, second);
    var once := u.WithChallengeScore(challengeId, second);
    assert twice.challengeScores.Keys == once.challengeScores.Keys;
    forall k | k in twice.challengeScores
      ensures twice.challengeScores[k] == once.challengeScores[k]
    {
    }
  }

  // ---------------------------------------------------------------------------
  // Replacing a course or skill record by id

  predicate DistinctCourseIds(courses: seq<Course>) {
    forall i, j :: 0 <= i < j < |courses| ==> courses[i].id != courses[j].id
  }

  predicate DistinctSkillIds(skills: seq<BusinessSkill>) {
    forall i, j :: 0 <= i < j < |skills| ==> skills[i].id != skills[j].id
  }

  /** `courses.firstIndex(where: { $0.id == courseId })`. */
  function CourseIndex(courses: seq<Course>, courseId: Uuid): (r: Option<nat>)
    ensures r.None? <==> forall i :: 0 <= i < |courses| ==> courses[i].id != courseId
    ensures r.Some? ==> r.value < |courses| && courses[r.value].id == courseId
    ensures r.Some? ==> forall j :: 0 <= j < r.value ==> courses[j].id != courseId
  {
    FirstIndexWhere(courses, (c: Course) => c.id == courseId)
  }

  /** `businessSkills.firstIndex(where: { $0.id == skillId })`. */
  function SkillIndex(skills: seq<BusinessSkill>, skillId: Uuid): (r: Option<nat>)
    ensures r.None? <==> forall i :: 0 <= i < |skills| ==> skills[i].id != skillId
    ensures r.Some? ==> r.value < |skills| && skills[r.value].id == skillId
    ensures r.Some? ==> forall j :: 0 <= j < r.value ==> skills[j].id != skillId
  {
    FirstIndexWhere(skills, (s: BusinessSkill) => s.id == skillId)
  }

  /**
   * The collection after `updateCourseProgress(courseId, progress)`: the first
   * course with that id is rebuilt by the memberwise initializer, which copies
   * every field but the progress and draws a fresh id (`newId`); the progress is
   * taken as given, without clamping. An absent id changes nothing.
   */
  function CoursesWithProgress(courses: seq<Course>, courseId: Uuid, progress: real, newId: Uuid): (r: seq<Course>)
    ensures |r| == |courses|
    ensures CourseIndex(courses, courseId).None? ==> r == courses
    ensures CourseIndex(courses, courseId).Some? ==>
      var i := CourseIndex(courses, courseId).value;
      && r[i].id == newId && r[i].progress == progress
      && r[i].(id := courseId, progress := courses[i].progress) == courses[i]
      && forall j :: 0 <= j < |r| && j != i ==> r[j] == courses[j]
  {
    match CourseIndex(courses, courseId)
    case None => courses
    case Some(i) =>
      var c := courses[i];
      courses[i := Course(newId, c.title, c.language, c.description, c.difficulty, c.lessons, progress, c.estimatedTime, c.flag)]
  }

  /** The collection after `updateSkillProgress(skillId, progress)`, built the same way. */
  function SkillsWithProgress(skills: seq<BusinessSkill>, skillId: Uuid, progress: real, newId: Uuid): (r: seq<BusinessSkill>)
    ensures |r| == |skills|
    ensures SkillIndex(skills, skillId).None? ==> r == skills
    ensures SkillIndex(skills, skillId).Some? ==>
      var i := SkillIndex(skills, skillId).value;
      && r[i].id == newId && r[i].progress == progress
      && r[i].(id := skillId, progress := skills[i].progress) == skills[i]
      && forall j :: 0 <= j < |r| && j != i ==> r[j] == skills[j]
  {
    match SkillIndex(skills, skillId)
    case None => skills
    case Some(i) =>
      var s := skills[i];
      skills[i := BusinessSkill(newId, s.title, s.category, s.description, s.modules, progress, s.estimatedTime, s.icon)]
  }

  /** With a fresh replacement id, the course ids stay pairwise distinct. */
  lemma {:induction false} CourseUpdateKeepsIdsDistinct(courses: seq<Course>, courseId: Uuid, progress: real, newId: Uuid)
    requires DistinctCourseIds(courses)
    requires forall i :: 0 <= i < |courses| ==> courses[i].id != newId
    ensures DistinctCourseIds(CoursesWithProgress(courses, courseId, progress, newId))
  {
    var r := CoursesWithProgress(courses, courseId, progress, newId);
    forall i, j | 0 <= i < j < |r|
      ensures r[i].id != r[j].id
    {
      if CourseIndex(courses, courseId).Some? {
        var k := CourseIndex(courses, courseId).value;
        if i == k {
          assert r[j] == courses[j];
        } else if j == k {
          assert r[i] == courses[i];
        } else {
          assert r[i] == courses[i] && r[j] == courses[j];
        }
      }
    }
  }

  /**
   * The replaced record no longer carries the id it was looked up by, so a
   * second update by that (now stale) id finds nothing and changes nothing.
   */
  lemma {:induction false} StaleCourseIdIsNoOp(courses: seq<Course>, courseId: Uuid, progress: real, newId: Uuid,
                                               again: real, otherId: Uuid)
    requires DistinctCourseIds(courses)
    requires newId != courseId
    ensures var once := CoursesWithProgress(courses, courseId, progress, newId);
      CourseIndex(once, courseId).None? && CoursesWithProgress(once, courseId, again, otherId) == once
  {
    var once := CoursesWithProgress(courses, courseId, progress, newId);
    match CourseIndex(courses, courseId)
    case None =>
    case Some(k) =>
      forall j | 0 <= j < |once|
        ensures once[j].id != courseId
      {
        if j != k {
          assert once[j] == courses[j];
          assert courses[j].id != courses[k].id;
        }
      }
      assert CourseIndex(once, courseId).None?;
  }

  /** With a fresh replacement id, the skill ids stay pairwise distinct. */
  lemma {:induction false} SkillUpdateKeepsIdsDistinct(skills: seq<BusinessSkill>, skillId: Uuid, progress: real, newId: Uuid)
    requires DistinctSkillIds(skills)
    requires forall i :: 0 <= i < |skills| ==> skills[i].id != newId
    ensures DistinctSkillIds(SkillsWithProgress(skills, skillId, progress, newId))
  {
    var r := SkillsWithProgress(skills, skillId, progress, newId);
    forall i, j | 0 <= i < j < |r|
      ensures r[i].id != r[j].id
    {
      if SkillIndex(skills, skillId).Some? {
        var k := SkillIndex(skills, skillId).value;
        if i == k {
          assert r[j] == skills[j];
        } else if j == k {
          assert r[i] == skills[i];
        } else {
          assert r[i] == skills[i] && r[j] == skills[j];
        }
      }
    }
  }

  /** A second skill update by a stale id changes nothing. */
  lemma {:induction false} StaleSkillIdIsNoOp(skills: seq<BusinessSkill>, skillId: Uuid, progress: real, newId: Uuid,
                                              again: real, otherId: Uuid)
    requires DistinctSkillIds(skills)
    requires newId != skillId
    ensures var once := SkillsWithProgress(skills, skillId, progress, newId);
      SkillIndex(once, skillId).None? && SkillsWithProgress(once, skillId, again, otherId) == once
  {
    var once := SkillsWithProgress(skills, skillId, progress, newId);
    match SkillIndex(skills, skillId)
    case None =>
    case Some(k) =>
      forall j | 0 <= j < |once|
        ensures once[j].id != skillId
      {
        if j != k {
          assert once[j] == skills[j];
          assert skills[j].id != skills[k].id;
        }
      }
      assert SkillIndex(once, skillId).None?;
  }

  // ---------------------------------------------------------------------------
  // The key-value store

  /** An encoded blob, abstracted to the value it encodes; `Unreadable` is data no decoder accepts. */
  datatype Data =
    | CoursesData(courses: seq<Course>)
    | SkillsData(skills: seq<BusinessSkill>)
    | ChallengesData(challenges: seq<EntertainmentChallenge>)
    | ProgressData(progress: UserProgress)
    | Unreadable

  datatype StoredValue = DataValue(data: Data) | BoolValue(flag: bool)

  /** Writing four keys after removing them leaves the same store as writing them outright. */
  lemma RemoveThenWrite<K, V>(m: map<K, V>, k1: K, k2: K, k3: K, k4: K, v1: V, v2: V, v3: V, v4: V)
    ensures (m - {k1} - {k2} - {k3} - {k4})[k1 := v1][k2 := v2][k3 := v3][k4 := v4]
         == m[k1 := v1][k2 := v2][k3 := v3][k4 := v4]
  {
  }

  /** `data(forKey:)` on the store's entries: the blob under the key, if the key holds one. */
  function StoredData(entries: map<string, StoredValue>, key: string): Option<Data> {
    if key in entries && entries[key].DataValue? then Some(entries[key].data) else None
  }

  /**
   * Reading after `set(_:forKey:)`: the written key yields the blob just
   * written (nothing for a flag), every other key what it yielded before.
   */
  lemma ReadAfterWrite(entries: map<string, StoredValue>, written: string, value: StoredValue, key: string)
    ensures key == written && value.DataValue? ==> StoredData(entries[written := value], key) == Some(value.data)
    ensures key == written && value.BoolValue? ==> StoredData(entries[written := value], key).None?
    ensures key != written ==> StoredData(entries[written := value], key) == StoredData(entries, key)
  {
  }

  /** After the four collections are written in turn, each key yields the blob written under it. */
  lemma ReadAfterFourWrites(entries: map<string, StoredValue>, c: Data, k: Data, ch: Data, p: Data)
    ensures
      var e := entries[CoursesKey := DataValue(c)][SkillsKey := DataValue(k)]
                      [ChallengesKey := DataValue(ch)][ProgressKey := DataValue(p)];
      && StoredData(e, CoursesKey) == Some(c) && StoredData(e, SkillsKey) == Some(k)
      && StoredData(e, ChallengesKey) == Some(ch) && StoredData(e, ProgressKey) == Some(p)
  {
    StoreKeysDistinct();
  }

  /** Reading after `removeObject(forKey:)`: the removed key yields nothing, every other key what it did. */
  lemma ReadAfterRemove(entries: map<string, StoredValue>, removed: string, key: string)
    ensures StoredData(entries - {removed}, removed).None?
    ensures key != removed ==> StoredData(entries - {removed}, key) == StoredData(entries, key)
  {
  }

  /** The persistent key-value store (`UserDefaults`). */
  class UserDefaults {
    var entries: map<string, StoredValue>

    constructor(initial: map<string, StoredValue>)
      ensures entries == initial
    {
      entries := initial;
    }

    /** `set(_:forKey:)`. */
    method Set(value: StoredValue, key: string)
      modifies this
      ensures entries == old(entries)[key := value]
    {
      entries := entries[key := value];
    }

    /** `removeObject(forKey:)`. */
    method RemoveObject(key: string)
      modifies this
      ensures entries == old(entries) - {key}
    {
      entries := entries - {key};
    }
  }

  /** Decoding `[Course]`: succeeds exactly on an encoded course list. */
  function DecodeCourses(d: Option<Data>): Option<seq<Course>> {
    if d.Some? && d.value.CoursesData? then Some(d.value.courses) else None
  }

  function DecodeSkills(d: Option<Data>): Option<seq<BusinessSkill>> {
    if d.Some? && d.value.SkillsData? then Some(d.value.skills) else None
  }

  function DecodeChallenges(d: Option<Data>): Option<seq<EntertainmentChallenge>> {
    if d.Some? && d.value.ChallengesData? then Some(d.value.challenges) else None
  }

  function DecodeProgress(d: Option<Data>): Option<UserProgress> {
    if d.Some? && d.value.ProgressData? then Some(d.value.progress) else None
  }

  /** What a load adopts: the decoded value, or the seed data when decoding fails. */
  function LoadedCourses(d: Option<Data>, seed: seq<Course>): seq<Course> {
    match DecodeCourses(d)
    case Some(saved) => saved
    case None => seed
  }

  function LoadedSkills(d: Option<Data>, seed: seq<BusinessSkill>): seq<BusinessSkill> {
    match DecodeSkills(d)
    case Some(saved) => saved
    case None => seed
  }

  function LoadedChallenges(d: Option<Data>, seed: seq<EntertainmentChallenge>): seq<EntertainmentChallenge> {
    match DecodeChallenges(d)
    case Some(saved) => saved
    case None => seed
  }

  function LoadedProgress(d: Option<Data>): UserProgress {
    match DecodeProgress(d)
    case Some(saved) => saved
    case None => NewUserProgress
  }

  /** A save followed by a load gives back what was saved, for every collection. */
  lemma SaveThenLoad(courses: seq<Course>, skills: seq<BusinessSkill>, challenges: seq<EntertainmentChallenge>,
                     progress: UserProgress, seedCourses: seq<Course>, seedSkills: seq<BusinessSkill>,
                     seedChallenges: seq<EntertainmentChallenge>)
    ensures LoadedCourses(Some(CoursesData(courses)), seedCourses) == courses
    ensures LoadedSkills(Some(SkillsData(skills)), seedSkills) == skills
    ensures LoadedChallenges(Some(ChallengesData(challenges)), seedChallenges) == challenges
    ensures LoadedProgress(Some(ProgressData(progress))) == progress
  {
  }

  /**
   * A load adopts either the seed or exactly the value stored under its key:
   * nothing else can come out of it, whatever the store holds.
   */
  lemma LoadedIsStoredOrSeed(entries: map<string, StoredValue>, seedCourses: seq<Course>,
                             seedSkills: seq<BusinessSkill>, seedChallenges: seq<EntertainmentChallenge>)
    ensures var r := LoadedCourses(StoredData(entries, CoursesKey), seedCourses);
      r == seedCourses || (CoursesKey in entries && entries[CoursesKey] == DataValue(CoursesData(r)))
    ensures var r := LoadedSkills(StoredData(entries, SkillsKey), seedSkills);
      r == seedSkills || (SkillsKey in entries && entries[SkillsKey] == DataValue(SkillsData(r)))
    ensures var r := LoadedChallenges(StoredData(entries, ChallengesKey), seedChallenges);
      r == seedChallenges || (ChallengesKey in entries && entries[ChallengesKey] == DataValue(ChallengesData(r)))
    ensures var r := LoadedProgress(StoredData(entries, ProgressKey));
      r == NewUserProgress || (ProgressKey in entries && entries[ProgressKey] == DataValue(ProgressData(r)))
  {
  }

  /**
   * Saving one collection, or setting the onboarding flag, does not change
   * what loading any other collection gives.
   */
  lemma LoadIgnoresOtherKeys(entries: map<string, StoredValue>, written: string, value: StoredValue,
                             seedCourses: seq<Course>, seedSkills: seq<BusinessSkill>,
                             seedChallenges: seq<EntertainmentChallenge>)
    ensures written != CoursesKey ==>
      LoadedCourses(StoredData(entries[written := value], CoursesKey), seedCourses)
        == LoadedCourses(StoredData(entries, CoursesKey), seedCourses)
    ensures written != SkillsKey ==>
      LoadedSkills(StoredData(entries[written := value], SkillsKey), seedSkills)
        == LoadedSkills(StoredData(entries, SkillsKey), seedSkills)
    ensures written != ChallengesKey ==>
      LoadedChallenges(StoredData(entries[written := value], ChallengesKey), seedChallenges)
        == LoadedChallenges(StoredData(entries, ChallengesKey), seedChallenges)
    ensures written != ProgressKey ==>
      LoadedProgress(StoredData(entries[written := value], ProgressKey))
        == LoadedProgress(StoredData(entries, ProgressKey))
  {
  }

  // ---------------------------------------------------------------------------
  // The service

  class DataService {
    var courses: seq<Course>
    var businessSkills: seq<BusinessSkill>
    var entertainmentChallenges: seq<EntertainmentChallenge>
    var userProgress: UserProgress
    const userDefaults: UserDefaults
    /**
     * The seed data that loading falls back to and a reset restores: the
     * static sample arrays, fixed once by the constructor.
     */
    const sampleCourses: seq<Course>
    const sampleSkills: seq<BusinessSkill>
    const sampleChallenges: seq<EntertainmentChallenge>

    /** The store holds, under each key, exactly the in-memory value: what every save establishes. */
    ghost predicate Synced()
      reads this, userDefaults
    {
      && StoredData(userDefaults.entries, CoursesKey) == Some(CoursesData(courses))
      && StoredData(userDefaults.entries, SkillsKey) == Some(SkillsData(businessSkills))
      && StoredData(userDefaults.entries, ChallengesKey) == Some(ChallengesData(entertainmentChallenges))
      && StoredData(userDefaults.entries, ProgressKey) == Some(ProgressData(userProgress))
    }

    /** `init`: loads every collection from the store. */
    constructor(defaults: UserDefaults)
      modifies defaults
      ensures userDefaults == defaults
      ensures sampleCourses == SampleCourses && sampleSkills == SampleSkills && sampleChallenges == SampleChallenges
      ensures courses == LoadedCourses(StoredData(old(defaults.entries), CoursesKey), sampleCourses)
      ensures businessSkills == LoadedSkills(StoredData(old(defaults.entries), SkillsKey), sampleSkills)
      ensures entertainmentChallenges == LoadedChallenges(StoredData(old(defaults.entries), ChallengesKey), sampleChallenges)
      ensures userProgress == LoadedProgress(StoredData(old(defaults.entries), ProgressKey))
      ensures Synced()
    {
      courses := [];
      businessSkills := [];
      entertainmentChallenges := [];
      userProgress := NewUserProgress;
      userDefaults := defaults;
      sampleCourses := SampleCourses;
      sampleSkills := SampleSkills;
      sampleChallenges := SampleChallenges;
      new;
      LoadData();
    }

    method LoadData()
      modifies this, userDefaults
      ensures courses == LoadedCourses(StoredData(old(userDefaults.entries), CoursesKey), sampleCourses)
      ensures businessSkills == LoadedSkills(StoredData(old(userDefaults.entries), SkillsKey), sampleSkills)
      ensures entertainmentChallenges == LoadedChallenges(StoredData(old(userDefaults.entries), ChallengesKey), sampleChallenges)
      ensures userProgress == LoadedProgress(StoredData(old(userDefaults.entries), ProgressKey))
      ensures userDefaults.entries == old(userDefaults.entries)
        [CoursesKey := DataValue(CoursesData(courses))]
        [SkillsKey := DataValue(SkillsData(businessSkills))]
        [ChallengesKey := DataValue(ChallengesData(entertainmentChallenges))]
        [ProgressKey := DataValue(ProgressData(userProgress))]
      ensures Synced()
    {
      StoreKeysDistinct();
      ghost var e0 := userDefaults.entries;
      LoadCourses();
      ghost var c := DataValue(CoursesData(courses));
      ReadAfterWrite(e0, CoursesKey, c, SkillsKey);
      ReadAfterWrite(e0, CoursesKey, c, ChallengesKey);
      ReadAfterWrite(e0, CoursesKey, c, ProgressKey);
      ghost var e1 := userDefaults.entries;
      LoadBusinessSkills();
      ghost var k := DataValue(SkillsData(businessSkills));
      ReadAfterWrite(e1, SkillsKey, k, ChallengesKey);
      ReadAfterWrite(e1, SkillsKey, k, ProgressKey);
      ghost var e2 := userDefaults.entries;
      LoadEntertainmentChallenges();
      ReadAfterWrite(e2, ChallengesKey, DataValue(ChallengesData(entertainmentChallenges)), ProgressKey);
      LoadUserProgress();
      ReadAfterFourWrites(e0, CoursesData(courses), SkillsData(businessSkills),
        ChallengesData(entertainmentChallenges), ProgressData(userProgress));
    }

    /** Adopts the stored courses if they decode; otherwise seeds the samples and writes them back. */
    method LoadCourses()
      modifies this`courses, userDefaults
      ensures courses == LoadedCourses(StoredData(old(userDefaults.entries), CoursesKey), sampleCourses)
      ensures userDefaults.entries == old(userDefaults.entries)[CoursesKey := DataValue(CoursesData(courses))]
      ensures DecodeCourses(StoredData(old(userDefaults.entries), CoursesKey)).Some? ==> userDefaults.entries == old(userDefaults.entries)
    {
      var saved := DecodeCourses(StoredData(userDefaults.entries, CoursesKey));
      if saved.Some? {
        courses := saved.value;
      } else {
        courses := sampleCourses;
        SaveCourses();
      }
    }

    method LoadBusinessSkills()
      modifies this`businessSkills, userDefaults
      ensures businessSkills == LoadedSkills(StoredData(old(userDefaults.entries), SkillsKey), sampleSkills)
      ensures userDefaults.entries == old(userDefaults.entries)[SkillsKey := DataValue(SkillsData(businessSkills))]
      ensures DecodeSkills(StoredData(old(userDefaults.entries), SkillsKey)).Some? ==> userDefaults.entries == old(userDefaults.entries)
    {
      var saved := DecodeSkills(StoredData(userDefaults.entries, SkillsKey));
      if saved.Some? {
        businessSkills := saved.value;
      } else {
        businessSkills := sampleSkills;
        SaveBusinessSkills();
      }
    }

    method LoadEntertainmentChallenges()
      modifies this`entertainmentChallenges, userDefaults
      ensures entertainmentChallenges == LoadedChallenges(StoredData(old(userDefaults.entries), ChallengesKey), sampleChallenges)
      ensures userDefaults.entries == old(userDefaults.entries)[ChallengesKey := DataValue(ChallengesData(entertainmentChallenges))]
      ensures DecodeChallenges(StoredData(old(userDefaults.entries), ChallengesKey)).Some? ==> userDefaults.entries == old(userDefaults.entries)
    {
      var saved := DecodeChallenges(StoredData(userDefaults.entries, ChallengesKey));
      if saved.Some? {
        entertainmentChallenges := saved.value;
      } else {
        entertainmentChallenges := sampleChallenges;
        SaveEntertainmentChallenges();
      }
    }

    method LoadUserProgress()
      modifies this`userProgress, userDefaults
      ensures userProgress == LoadedProgress(StoredData(old(userDefaults.entries), ProgressKey))
      ensures userDefaults.entries == old(userDefaults.entries)[ProgressKey := DataValue(ProgressData(userProgress))]
      ensures DecodeProgress(StoredData(old(userDefaults.entries), ProgressKey)).Some? ==> userDefaults.entries == old(userDefaults.entries)
    {
      var saved := DecodeProgress(StoredData(userDefaults.entries, ProgressKey));
      if saved.Some? {
        userProgress := saved.value;
      } else {
        userProgress := NewUserProgress;
        SaveUserProgress();
      }
    }

    method SaveCourses()
      modifies userDefaults
      ensures userDefaults.entries == old(userDefaults.entries)[CoursesKey := DataValue(CoursesData(courses))]
    {
      userDefaults.Set(DataValue(CoursesData(courses)), CoursesKey);
    }

    method SaveBusinessSkills()
      modifies userDefaults
      ensures userDefaults.entries == old(userDefaults.entries)[SkillsKey := DataValue(SkillsData(businessSkills))]
    {
      userDefaults.Set(DataValue(SkillsData(businessSkills)), SkillsKey);
    }

    method SaveEntertainmentChallenges()
      modifies userDefaults
      ensures userDefaults.entries ==
        old(userDefaults.entries)[ChallengesKey := DataValue(ChallengesData(entertainmentChallenges))]
    {
      userDefaults.Set(DataValue(ChallengesData(entertainmentChallenges)), ChallengesKey);
    }

    method SaveUserProgress()
      modifies userDefaults
      ensures userDefaults.entries == old(userDefaults.entries)[ProgressKey := DataValue(ProgressData(userProgress))]
    {
      userDefaults.Set(DataValue(ProgressData(userProgress)), ProgressKey);
    }

    /**
     * Replaces the first course with the id by a copy with the new progress (and
     * a fresh id) and saves the courses; an absent id touches neither the
     * courses nor the store.
     */
    method UpdateCourseProgress(courseId: Uuid, progress: real, newId: Uuid)
      modifies this`courses, userDefaults
      ensures courses == CoursesWithProgress(old(courses), courseId, progress, newId)
      ensures CourseIndex(old(courses), courseId).Some? ==>
        userDefaults.entries == old(userDefaults.entries)[CoursesKey := DataValue(CoursesData(courses))]
      ensures CourseIndex(old(courses), courseId).None? ==> userDefaults.entries == old(userDefaults.entries)
      ensures old(Synced()) ==> Synced()
    {
      if CourseIndex(courses, courseId).Some? {
        courses := CoursesWithProgress(courses, courseId, progress, newId);
        SaveCourses();
      }
    }

    /** The same replacement for a business skill, saving the skills. */
    method UpdateSkillProgress(skillId: Uuid, progress: real, newId: Uuid)
      modifies this`businessSkills, userDefaults
      ensures businessSkills == SkillsWithProgress(old(businessSkills), skillId, progress, newId)
      ensures SkillIndex(old(businessSkills), skillId).Some? ==>
        userDefaults.entries == old(userDefaults.entries)[SkillsKey := DataValue(SkillsData(businessSkills))]
      ensures SkillIndex(old(businessSkills), skillId).None? ==> userDefaults.entries == old(userDefaults.entries)
      ensures old(Synced()) ==> Synced()
    {
      if SkillIndex(businessSkills, skillId).Some? {
        businessSkills := SkillsWithProgress(businessSkills, skillId, progress, newId);
        SaveBusinessSkills();
      }
    }

    /** Records a challenge score and saves the progress. */
    method AddChallengeScore(challengeId: Uuid, score: int)
      modifies this`userProgress, userDefaults
      ensures userProgress == old(userProgress).WithChallengeScore(challengeId, score)
      ensures userDefaults.entries == old(userDefaults.entries)[ProgressKey := DataValue(ProgressData(userProgress))]
      ensures old(Synced()) ==> Synced()
    {
      userProgress := userProgress.WithChallengeScore(challengeId, score);
      SaveUserProgress();
    }

    /** Removes the four keys, returns every collection to its seed value and writes all four back. */
    method ResetAllData()
      modifies this`courses, this`businessSkills, this`entertainmentChallenges, this`userProgress, userDefaults
      ensures courses == sampleCourses
      ensures businessSkills == sampleSkills
      ensures entertainmentChallenges == sampleChallenges
      ensures userProgress.totalPoints == 0 && userProgress.challengeScores == map[]
      ensures userProgress.completedCourses == [] && userProgress.completedSkills == []
      ensures userProgress.currentStreak == 0 && userProgress.studyTimeMinutes == 0
      ensures userDefaults.entries == old(userDefaults.entries)
        [CoursesKey := DataValue(CoursesData(sampleCourses))]
        [SkillsKey := DataValue(SkillsData(sampleSkills))]
        [ChallengesKey := DataValue(ChallengesData(sampleChallenges))]
        [ProgressKey := DataValue(ProgressData(NewUserProgress))]
      ensures Synced()
    {
      ghost var before := userDefaults.entries;
      userDefaults.RemoveObject(CoursesKey);
      userDefaults.RemoveObject(SkillsKey);
      userDefaults.RemoveObject(ChallengesKey);
      userDefaults.RemoveObject(ProgressKey);

      courses := sampleCourses;
      businessSkills := sampleSkills;
      entertainmentChallenges := sampleChallenges;
      userProgress := NewUserProgress;

      SaveCourses();
      SaveBusinessSkills();
      SaveEntertainmentChallenges();
      SaveUserProgress();
      RemoveThenWrite(before, CoursesKey, SkillsKey, ChallengesKey, ProgressKey,
        DataValue(CoursesData(courses)), DataValue(SkillsData(businessSkills)),
        DataValue(ChallengesData(entertainmentChallenges)), DataValue(ProgressData(userProgress)));
      ReadAfterFourWrites(before, CoursesData(courses), SkillsData(businessSkills),
        ChallengesData(entertainmentChallenges), ProgressData(userProgress));
    }
  }
}
