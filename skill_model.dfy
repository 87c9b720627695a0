/**
 * Business skills: a skill is a sequence of modules, a module a sequence of
 * practice scenarios; and the three bundled sample skills.
 */
module SkillModel {
  import opened Foundation

  datatype SkillCategory = Communication | Negotiation | Presentation | Networking | Leadership | Etiquette {
    function RawValue(): string {
      match this
      case Communication => "Communication"
      case Negotiation => "Negotiation"
      case Presentation => "Presentation"
      case Networking => "Networking"
      case Leadership => "Leadership"
      case Etiquette => "Cultural Etiquette"
    }
  }

  /** `SkillCategory.allCases`, in declaration order. */
  const AllSkillCategories: seq<SkillCategory> :=
    [Communication, Negotiation, Presentation, Networking, Leadership, Etiquette]

  datatype PracticeScenario = PracticeScenario(
    id: Uuid,
    title: string,
    situation: string,
    culturalContext: string,
    keyPhrases: seq<string>,
    tips: seq<string>,
    language: string)

  datatype SkillModule = SkillModule(
    id: Uuid,
    title: string,
    content: string,
    practiceScenarios: seq<PracticeScenario>,
    isCompleted: bool,
    duration: int)  // minutes

  datatype BusinessSkill = BusinessSkill(
    id: Uuid,
    title: string,
    category: SkillCategory,
    description: string,
    modules: seq<SkillModule>,
    progress: real,
    estimatedTime: string,
    icon: string)

  const SampleSkills: seq<BusinessSkill> := [
    BusinessSkill(
      301,
      "International Business Communication",
      Communication,
      "Master professional communication across cultures",
      [
        SkillModule(
          311,
          "Email Etiquette",
          "Learn proper email communication in different cultures",
          [
            PracticeScenario(
              312,
              "Formal Business Email",
              "Writing a formal proposal to a Japanese client",
              "Japanese business culture values formality and respect",
              ["いつもお世話になっております", "ご検討のほど", "よろしくお願いいたします"],
              ["Use honorific language", "Be indirect and humble", "Include proper greetings"],
              "Japanese")
          ],
          false,
          30)
      ],
      0.0,
      "1 week",
      "envelope.fill"),
    BusinessSkill(
      302,
      "Cross-Cultural Negotiation",
      Negotiation,
      "Navigate negotiations across different cultural contexts",
      [
        SkillModule(
          321,
          "German Business Style",
          "Understanding direct communication in German business culture",
          [
            PracticeScenario(
              322,
              "Contract Negotiation",
              "Negotiating terms with a German supplier",
              "Germans prefer direct, fact-based communication",
              ["Können wir über die Bedingungen sprechen?", "Das ist nicht akzeptabel", "Wir brauchen eine bessere Lösung"],
              ["Be direct and honest", "Come prepared with facts", "Respect punctuality"],
              "German")
          ],
          false,
          45)
      ],
      0.0,
      "2 weeks",
      "handshake.fill"),
    BusinessSkill(
      303,
      "Global Presentation Skills",
      Presentation,
      "Deliver compelling presentations to international audiences",
      [
        SkillModule(
          331,
          "French Presentation Style",
          "Adapt your presentation style for French business culture",
          [
            PracticeScenario(
              332,
              "Product Launch Presentation",
              "Presenting a new product to French stakeholders",
              "French audiences appreciate intellectual discourse and detailed analysis",
              ["Permettez-moi de vous présenter", "Comme vous pouvez le voir", "En conclusion"],
              ["Use sophisticated language", "Include detailed analysis", "Engage in intellectual discussion"],
              "French")
          ],
          false,
          40)
      ],
      0.0,
      "1.5 weeks",
      "person.3.fill")
  ]

  /**
   * Three sample skills in the first three categories, each with one
   * unfinished module holding one scenario with three key phrases and three
   * tips, and each starting at progress 0.
   */
  lemma SampleSkillsShape()
    ensures |SampleSkills| == 3
    ensures forall i :: 0 <= i < 3 ==> SampleSkills[i].category == AllSkillCategories[i]
    ensures forall s :: s in SampleSkills ==>
      && s.progress == 0.0
      && |s.modules| == 1
      && !s.modules[0].isCompleted
      && |s.modules[0].practiceScenarios| == 1
      && |s.modules[0].practiceScenarios[0].keyPhrases| == 3
      && |s.modules[0].practiceScenarios[0].tips| == 3
  {
  }

  /** The sample modules last 30, 45 and 40 minutes. */
  lemma SampleModuleDurations()
    ensures |SampleSkills| == 3
    ensures forall s :: s in SampleSkills ==> |s.modules| == 1
    ensures [SampleSkills[0].modules[0].duration, SampleSkills[1].modules[0].duration,
             SampleSkills[2].modules[0].duration] == [30, 45, 40]
  {
  }

  /** The ids of the sample skills, modules and scenarios are pairwise distinct. */
  lemma SampleSkillIdsDistinct()
    ensures var ids := seq(|SampleSkills|, i requires 0 <= i < |SampleSkills| => SampleSkills[i].id)
                     + [SampleSkills[0].modules[0].id, SampleSkills[1].modules[0].id, SampleSkills[2].modules[0].id]
                     + [SampleSkills[0].modules[0].practiceScenarios[0].id,
                        SampleSkills[1].modules[0].practiceScenarios[0].id,
                        SampleSkills[2].modules[0].practiceScenarios[0].id];
      forall i, j :: 0 <= i < j < |ids| ==> ids[i] != ids[j]
  {
  }

  /** `SkillCategory` has six cases, each with its own raw value. */
  lemma SkillCategoriesDistinct()
    ensures |AllSkillCategories| == 6 && forall c: SkillCategory :: c in AllSkillCategories
    ensures forall i, j :: 0 <= i < j < |AllSkillCategories| ==> AllSkillCategories[i] != AllSkillCategories[j]
    ensures forall a: SkillCategory, b: SkillCategory :: a != b ==> a.RawValue() != b.RawValue()
  {
    forall c: SkillCategory ensures c in AllSkillCategories {
      match c
      case Communication => assert AllSkillCategories[0] == c;
      case Negotiation => assert AllSkillCategories[1] == c;
      case Presentation => assert AllSkillCategories[2] == c;
      case Networking => assert AllSkillCategories[3] == c;
      case Leadership => assert AllSkillCategories[4] == c;
      case Etiquette => assert AllSkillCategories[5] == c;
    }
  }
}
