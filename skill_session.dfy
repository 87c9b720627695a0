/**
 * The business skill session: a skill's module is worked through by
 * completing its practice scenarios; once the completed share reaches one the
 * module is completed, which advances the skill's progress and awards points.
 */
module SkillSession {
  import opened Foundation
  import opened SkillModel
  import opened ProgressStore

  /**
   * The module progress, `Double(completed) / Double(total)`. The completed
   * count is at least one when it is computed, so a module without scenarios
   * yields positive infinity rather than a real number.
   */
  datatype Ratio = Finite(value: real) | PositiveInfinity {
    predicate AtLeastOne() {
      PositiveInfinity? || value >= 1.0
    }
  }

  function ScenarioRatio(completed: nat, total: nat): (r: Ratio)
    requires completed > 0
    ensures r.PositiveInfinity? <==> total == 0
    ensures r.Finite? ==> r.value * total as real == completed as real
    ensures r.AtLeastOne() <==> completed >= total
  {
    if total == 0 then PositiveInfinity
    else
      ShareFacts(completed, total);
      Finite(completed as real / total as real)
  }

  lemma ShareFacts(completed: nat, total: nat)
    requires total > 0
    ensures (completed as real / total as real) * total as real == completed as real
    ensures completed as real / total as real >= 1.0 <==> completed >= total
  {
    var q := completed as real / total as real;
    assert q * total as real == completed as real;
    if q >= 1.0 {
      assert q * total as real >= 1.0 * total as real;
    } else {
      assert q * total as real < 1.0 * total as real;
    }
  }

  /** `calculateModulePoints`: two points per minute of the current module, none without one. */
  function ModulePoints(current: Option<SkillModule>): int
  {
    match current
    case None => 0
    case Some(m) => m.duration * 2
  }

  /**
   * The award grows with the module's duration, is always even, and a module
   * of non-negative duration awards at least as much as no module at all.
   */
  lemma ModuleAwardFollowsDuration(a: SkillModule, b: SkillModule)
    ensures ModulePoints(None) == 0
    ensures a.duration <= b.duration ==> ModulePoints(Some(a)) <= ModulePoints(Some(b))
    ensures a.duration < b.duration ==> ModulePoints(Some(a)) < ModulePoints(Some(b))
    ensures ModulePoints(Some(a)) % 2 == 0
    ensures a.duration >= 0 ==> ModulePoints(Some(a)) >= ModulePoints(None)
  {
  }

  /** Each sample module holds one scenario, so completing it completes the module. */
  lemma SampleScenarioCompletesModule()
    ensures forall s :: s in SampleSkills ==>
      |s.modules| == 1 && ScenarioRatio(1, |s.modules[0].practiceScenarios|).AtLeastOne()
  {
    SampleSkillsShape();
  }

  /** The sample modules award 60, 90 and 80 points. */
  lemma SampleModuleAwards()
    ensures |SampleSkills| == 3 && forall s :: s in SampleSkills ==> |s.modules| == 1
    ensures [ModulePoints(Some(SampleSkills[0].modules[0])), ModulePoints(Some(SampleSkills[1].modules[0])),
             ModulePoints(Some(SampleSkills[2].modules[0]))] == [60, 90, 80]
  {
    SampleModuleDurations();
  }

  function SkillsByCategory(skills: seq<BusinessSkill>, category: SkillCategory): (r: seq<BusinessSkill>)
    ensures forall i :: 0 <= i < |r| ==> r[i].category == category
    ensures forall s: BusinessSkill :: s.category == category ==> multiset(r)[s] == multiset(skills)[s]
  {
    var r := Filter(skills, (s: BusinessSkill) => s.category == category);
    forall i | 0 <= i < |r| ensures r[i].category == category {
      assert multiset(r)[r[i]] > 0;
    }
    r
  }

  class BusinessSkillViewModel {
    var selectedSkill: Option<BusinessSkill>
    var currentModule: Option<SkillModule>
    var currentScenario: Option<PracticeScenario>
    var moduleProgress: Ratio
    var showingScenarioDetail: bool
    var completedScenarios: set<Uuid>
    const dataService: DataService

    /**
     * The module progress is zero until a scenario of the current module is
     * completed, and from then on the completed share of the current
     * module's scenarios; without a module it is zero.
     */
    ghost predicate Valid()
      reads this
    {
      || (moduleProgress == Finite(0.0) && (currentModule.Some? ==> completedScenarios == {}))
      || (&& currentModule.Some? && |completedScenarios| > 0
          && moduleProgress == ScenarioRatio(|completedScenarios|, |currentModule.value.practiceScenarios|))
    }

    constructor(service: DataService)
      ensures dataService == service
      ensures selectedSkill.None? && currentModule.None? && currentScenario.None?
      ensures moduleProgress == Finite(0.0) && !showingScenarioDetail && completedScenarios == {}
      ensures Valid()
    {
      selectedSkill := None;
      currentModule := None;
      currentScenario := None;
      moduleProgress := Finite(0.0);
      showingScenarioDetail := false;
      completedScenarios := {};
      dataService := service;
    }

    /** The skill fetch delivering its skills: the service adopts and saves them. */
    method ReceiveSkills(fetched: seq<BusinessSkill>)
      modifies dataService`businessSkills, dataService.userDefaults
      ensures dataService.businessSkills == fetched
      ensures dataService.userDefaults.entries ==
        old(dataService.userDefaults.entries)[SkillsKey := DataValue(SkillsData(fetched))]
    {
      dataService.businessSkills := fetched;
      dataService.SaveBusinessSkills();
    }

    /** Selects the skill and starts its first module, if it has one. */
    method SelectSkill(skill: BusinessSkill)
      requires Valid()
      modifies this`selectedSkill, this`currentModule, this`moduleProgress, this`completedScenarios
      ensures Valid()
      ensures selectedSkill == Some(skill)
      ensures |skill.modules| > 0 ==>
        currentModule == Some(skill.modules[0]) && moduleProgress == Finite(0.0) && completedScenarios == {}
      ensures |skill.modules| == 0 ==>
        && currentModule == old(currentModule) && moduleProgress == old(moduleProgress)
        && completedScenarios == old(completedScenarios)
    {
      selectedSkill := Some(skill);
      if |skill.modules| > 0 {
        StartModule(skill.modules[0]);
      }
    }

    /** Starts the module with no progress and no completed scenarios. */
    method StartModule(m: SkillModule)
      modifies this`currentModule, this`moduleProgress, this`completedScenarios
      ensures Valid()
      ensures currentModule == Some(m) && moduleProgress == Finite(0.0) && completedScenarios == {}
    {
      currentModule := Some(m);
      moduleProgress := Finite(0.0);
      completedScenarios := {};
    }

    method SelectScenario(scenario: PracticeScenario)
      modifies this`currentScenario, this`showingScenarioDetail
      ensures currentScenario == Some(scenario) && showingScenarioDetail
    {
      currentScenario := Some(scenario);
      showingScenarioDetail := true;
    }

    /**
     * Records the scenario as completed (a set insertion, so completing it twice
     * counts once) and, with a current module, sets the module progress to the
     * completed share; whenever that share is at least one the module is
     * completed, again on every later completion.
     */
    method CompleteScenario(scenario: PracticeScenario, newId: Uuid)
      requires Valid()
      modifies this`completedScenarios, this`moduleProgress,
               dataService`businessSkills, dataService`userProgress, dataService.userDefaults
      ensures Valid()
      ensures completedScenarios == old(completedScenarios) + {scenario.id}
      ensures old(currentModule).None? ==>
        && moduleProgress == old(moduleProgress)
        && dataService.businessSkills == old(dataService.businessSkills)
        && dataService.userProgress == old(dataService.userProgress)
        && dataService.userDefaults.entries == old(dataService.userDefaults.entries)
      ensures old(currentModule).Some? ==>
        moduleProgress == ScenarioRatio(|completedScenarios|, |old(currentModule).value.practiceScenarios|)
      ensures old(currentModule).Some? && old(moduleProgress).AtLeastOne() ==> moduleProgress.AtLeastOne()
      ensures old(currentModule).Some? && moduleProgress.AtLeastOne() && old(selectedSkill).Some? ==>
        var skill := old(selectedSkill).value;
        && dataService.businessSkills ==
             SkillsWithProgress(old(dataService.businessSkills), skill.id, StepTowardOne(skill.progress, |skill.modules|), newId)
        && dataService.userProgress ==
             old(dataService.userProgress).(totalPoints := old(dataService.userProgress).totalPoints + ModulePoints(currentModule))
        && (DistinctSkillIds(old(dataService.businessSkills)) && newId != skill.id ==>
              SkillIndex(dataService.businessSkills, skill.id).None?)
        && dataService.userDefaults.entries ==
             (if SkillIndex(old(dataService.businessSkills), skill.id).Some?
              then old(dataService.userDefaults.entries)[SkillsKey := DataValue(SkillsData(dataService.businessSkills))]
              else old(dataService.userDefaults.entries))
             [ProgressKey := DataValue(ProgressData(dataService.userProgress))]
      ensures !(old(currentModule).Some? && moduleProgress.AtLeastOne() && old(selectedSkill).Some?) ==>
        && dataService.businessSkills == old(dataService.businessSkills)
        && dataService.userProgress == old(dataService.userProgress)
        && dataService.userDefaults.entries == old(dataService.userDefaults.entries)
      ensures old(dataService.Synced()) ==> dataService.Synced()
    {
      completedScenarios := completedScenarios + {scenario.id};
      if currentModule.Some? {
        var current := currentModule.value;
        var progress := ScenarioRatio(|completedScenarios|, |current.practiceScenarios|);
        moduleProgress := progress;
        if old(moduleProgress).AtLeastOne() {
          if scenario.id in old(completedScenarios) {
            assert completedScenarios == old(completedScenarios);
          } else {
            assert |completedScenarios| == |old(completedScenarios)| + 1;
          }
        }
        if progress.AtLeastOne() {
          CompleteModule(newId);
        }
      }
    }

    /**
     * Advances the selected skill's progress by one module's share (never past
     * one; all the way for a skill without modules) and adds the module's
     * points straight onto the total, leaving the challenge scores alone.
     * Without a selected skill nothing happens.
     */
    method CompleteModule(newId: Uuid)
      modifies dataService`businessSkills, dataService`userProgress, dataService.userDefaults
      ensures old(selectedSkill).None? ==>
        && dataService.businessSkills == old(dataService.businessSkills)
        && dataService.userProgress == old(dataService.userProgress)
        && dataService.userDefaults.entries == old(dataService.userDefaults.entries)
      ensures old(selectedSkill).Some? ==>
        var skill := old(selectedSkill).value;
        && dataService.businessSkills ==
             SkillsWithProgress(old(dataService.businessSkills), skill.id, StepTowardOne(skill.progress, |skill.modules|), newId)
        && dataService.userProgress.totalPoints == old(dataService.userProgress).totalPoints + ModulePoints(currentModule)
        && dataService.userProgress.challengeScores == old(dataService.userProgress).challengeScores
        && dataService.userProgress ==
             old(dataService.userProgress).(totalPoints := dataService.userProgress.totalPoints)
        && (DistinctSkillIds(old(dataService.businessSkills)) && newId != skill.id ==>
              SkillIndex(dataService.businessSkills, skill.id).None?)
        && dataService.userDefaults.entries ==
             (if SkillIndex(old(dataService.businessSkills), skill.id).Some?
              then old(dataService.userDefaults.entries)[SkillsKey := DataValue(SkillsData(dataService.businessSkills))]
              else old(dataService.userDefaults.entries))
             [ProgressKey := DataValue(ProgressData(dataService.userProgress))]
      ensures old(selectedSkill).Some? && (currentModule.Some? ==> currentModule.value.duration >= 0) ==>
        dataService.userProgress.totalPoints >= old(dataService.userProgress).totalPoints
      ensures old(dataService.Synced()) ==> dataService.Synced()
    {
      if selectedSkill.None? {
        return;
      }
      var skill := selectedSkill.value;
      var newProgress := StepTowardOne(skill.progress, |skill.modules|);
      if DistinctSkillIds(dataService.businessSkills) && newId != skill.id {
        StaleSkillIdIsNoOp(dataService.businessSkills, skill.id, newProgress, newId, newProgress, newId);
      }
      dataService.UpdateSkillProgress(skill.id, newProgress, newId);
      var points := ModulePoints(currentModule);
      dataService.userProgress := dataService.userProgress.(totalPoints := dataService.userProgress.totalPoints + points);
      dataService.SaveUserProgress();
    }

    /** Clears the selection, the module state and the completed scenarios. */
    method ResetProgress()
      modifies this`selectedSkill, this`currentModule, this`currentScenario, this`moduleProgress,
               this`showingScenarioDetail, this`completedScenarios
      ensures Valid()
      ensures selectedSkill.None? && currentModule.None? && currentScenario.None?
      ensures moduleProgress == Finite(0.0) && !showingScenarioDetail && completedScenarios == {}
    {
      selectedSkill := None;
      currentModule := None;
      currentScenario := None;
      moduleProgress := Finite(0.0);
      showingScenarioDetail := false;
      completedScenarios := {};
    }
  }
}
