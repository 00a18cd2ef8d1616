/** The results page: the analysis it runs when it opens (with the sample profile when
    the assessment is incomplete), the helpers that choose what it shows, and the
    learning-progress state it keeps next to the demo controller. */
module Results {
  import opened Text
  import opened Seqs
  import opened Types
  import opened SkillsData
  import opened AiProcessor
  import opened AppContext
  import opened DemoData
  import opened JourneyMap

  // ---------------------------------------------------------------- motivational message

  const ExcellentMessage: string := "Excellent match! You're well-positioned for this career transition."
  const GreatMessage: string := "Great potential! With focused learning, you'll be ready soon."
  const GoodMessage: string := "Good foundation! A structured learning path will get you there."
  const BeginnerMessage: string := "Every expert was once a beginner. Your journey starts here!"

  /** `getMotivationalMessage`: the bands start at 80, 60 and 40. */
  function MotivationalMessage(score: int): (m: string)
    ensures m == ExcellentMessage <==> score >= 80
    ensures m == GreatMessage <==> 60 <= score < 80
    ensures m == GoodMessage <==> 40 <= score < 60
    ensures m == BeginnerMessage <==> score < 40
  {
    if score >= 80 then ExcellentMessage
    else if score >= 60 then GreatMessage
    else if score >= 40 then GoodMessage
    else BeginnerMessage
  }

  /** A higher score never gets a lower band. */
  lemma MessageBandMonotone(a: int, b: int)
    requires a <= b
    ensures MotivationalMessage(a) == ExcellentMessage ==> MotivationalMessage(b) == ExcellentMessage
    ensures MotivationalMessage(a) == GreatMessage ==> MotivationalMessage(b) in {GreatMessage, ExcellentMessage}
    ensures MotivationalMessage(b) == BeginnerMessage ==> MotivationalMessage(a) == BeginnerMessage
  {
  }

  // ---------------------------------------------------------------- next steps

  datatype Step = Step(title: string, description: string, icon: string)

  const SafetyStep: Step := Step("Start with Safety Training",
    "Complete OSHA safety certification - essential for all trades", "\U{1F6E1}\U{FE0F}")
  const ToolStep: Step := Step("Build Tool Familiarity",
    "Practice with basic trade tools and equipment", "\U{1F527}")
  const CommunityStep: Step := Step("Join Electrical Communities",
    "Connect with professionals and learn from their experiences", "\U{1F465}")

  /** Some gap's lowercased name contains `word`. */
  predicate SomeGapMentions(gaps: seq<SkillGap>, word: string)
  {
    exists i :: 0 <= i < |gaps| && Contains(LowerStr(gaps[i].skill), word)
  }

  /** `getNextSteps`: the safety step, the tool step, each when a gap asks for it, and the
      community step, cut to three. */
  method GetNextSteps(gaps: seq<SkillGap>) returns (steps: seq<Step>)
    ensures 1 <= |steps| <= 3 && steps[|steps| - 1] == CommunityStep
    ensures SafetyStep in steps <==> SomeGapMentions(gaps, "safety")
    ensures ToolStep in steps <==> SomeGapMentions(gaps, "tool")
    ensures SomeGapMentions(gaps, "safety") ==> steps[0] == SafetyStep
    ensures SomeGapMentions(gaps, "tool") ==> steps[|steps| - 2] == ToolStep
  {
    var safety, tool := SomeGapMentions(gaps, "safety"), SomeGapMentions(gaps, "tool");
    steps := [];
    if safety {
      steps := steps + [SafetyStep];
    }
    if tool {
      steps := steps + [ToolStep];
    }
    steps := steps + [CommunityStep];
    assert steps == (if safety then [SafetyStep] else []) + (if tool then [ToolStep] else []) + [CommunityStep];
    assert SafetyStep != ToolStep && SafetyStep != CommunityStep && ToolStep != CommunityStep;
    steps := steps[..if |steps| < 3 then |steps| else 3];
    assert steps == (if safety then [SafetyStep] else []) + (if tool then [ToolStep] else []) + [CommunityStep];
  }

  // ---------------------------------------------------------------- recommended skill

  /** `getNextRecommendedSkill`: the first gap skill not completed yet. */
  function NextRecommendedSkill(gaps: seq<SkillGap>, completed: seq<string>): (r: Option<string>)
    ensures r.None? <==> forall i :: 0 <= i < |gaps| ==> gaps[i].skill in completed
    ensures r.Some? ==> exists i :: (0 <= i < |gaps| && gaps[i].skill == r.value && r.value !in completed &&
                                     forall j :: 0 <= j < i ==> gaps[j].skill in completed)
    decreases |gaps|
  {
    if gaps == [] then None
    else if gaps[0].skill !in completed then Some(gaps[0].skill)
    else
      var r := NextRecommendedSkill(gaps[1..], completed);
      if r.Some? then
        var i :| 0 <= i < |gaps[1..]| && gaps[1..][i].skill == r.value && r.value !in completed &&
                 forall j :: 0 <= j < i ==> gaps[1..][j].skill in completed;
        assert gaps[i + 1].skill == r.value;
        r
      else r
  }

  // ---------------------------------------------------------------- matched skills

  /** Some trade skill's name and `skill` contain one another, ignoring case. */
  predicate MatchesSome(skill: string, tradeSkills: seq<Skill>)
  {
    exists j :: 0 <= j < |tradeSkills| && Matches(skill, tradeSkills[j].name)
  }

  /** The matched-skills filter: the resume skills that match a trade skill, in resume order. */
  function MatchedSkills(resumeSkills: seq<string>, tradeSkills: seq<Skill>): seq<string>
  {
    Filter(resumeSkills, s => MatchesSome(s, tradeSkills))
  }

  /** The matched skills are a sublist of the resume skills, every one of them matches a trade
      skill, and no matching resume skill is left out. */
  lemma MatchedSkillsSublist(resumeSkills: seq<string>, tradeSkills: seq<Skill>)
    ensures IsSubseq(MatchedSkills(resumeSkills, tradeSkills), resumeSkills)
    ensures var m := MatchedSkills(resumeSkills, tradeSkills);
      forall i :: 0 <= i < |m| ==> MatchesSome(m[i], tradeSkills)
    ensures forall i :: 0 <= i < |resumeSkills| && MatchesSome(resumeSkills[i], tradeSkills) ==>
      resumeSkills[i] in MatchedSkills(resumeSkills, tradeSkills)
  {
    FilterIsSubseq(resumeSkills, s => MatchesSome(s, tradeSkills));
  }

  // ---------------------------------------------------------------- analysis inputs

  /** The gaps the page always shows, whatever the analysis found. */
  const DemoSkillGaps: seq<SkillGap> := [
    SkillGap("Circuit Design", 2, 8),
    SkillGap("Electrical Safety", 3, 9),
    SkillGap("Wiring Installation", 4, 7),
    SkillGap("Motor Control Systems", 1, 6),
    SkillGap("PLC Programming", 1, 5)
  ]

  /** What the analysis runs on: a trade name, resume skills and answers. */
  datatype Profile = Profile(trade: string, skills: seq<string>, answers: QuestionAnswers)

  /** The sample profile used when the assessment is incomplete. */
  const SampleProfile: Profile := Profile("electrician", SampleResumeSkills, SampleAnswers)

  /** The inputs the analysis runs on: the assessment when it has a trade and resume skills,
      otherwise the `sample` profile. */
  function AnalysisInputs(app: AppState, sample: Profile): (r: Profile)
    ensures app.selectedTrade.Some? && app.resumeSkills != [] ==>
      r == Profile(TradeName(app.selectedTrade.value), app.resumeSkills, app.questionAnswers)
    ensures app.selectedTrade.None? || app.resumeSkills == [] ==> r == sample
  {
    if app.selectedTrade.None? || app.resumeSkills == [] then sample
    else Profile(TradeName(app.selectedTrade.value), app.resumeSkills, app.questionAnswers)
  }

  /** With the sample profile the analysis always has a known trade, whose skill list has 27
      entries, and a non-empty skill list. */
  lemma InputsAreKnownTrade(app: AppState)
    ensures var r := AnalysisInputs(app, SampleProfile);
      (r.trade == "plumber" || r.trade == "electrician") && |GetSkillsByTrade(r.trade)| == 27 && r.skills != []
  {
    KnownTradeSkills(Plumber);
    KnownTradeSkills(Electrician);
  }

  /** The level badge of a gap: Advanced from 8, Intermediate from 6, otherwise Basic. */
  function Badge(requiredLevel: int): (c: Category)
    ensures c == Advanced <==> requiredLevel >= 8
    ensures c == Intermediate <==> 6 <= requiredLevel < 8
    ensures c == Basic <==> requiredLevel < 6
  {
    if requiredLevel >= 8 then Advanced else if requiredLevel >= 6 then Intermediate else Basic
  }

  /** The badge does not invert the catalogue's required levels: a basic catalogue skill,
      whose gap asks for level 6, is shown as Intermediate. */
  lemma BadgeOfCatalogueLevels()
    ensures Badge(RequiredLevel(Basic)) == Intermediate
    ensures Badge(RequiredLevel(Intermediate)) == Advanced
    ensures Badge(RequiredLevel(Advanced)) == Advanced
  {
  }

  /** The demo gaps' badges, in page order. */
  lemma DemoGapBadges()
    ensures Map(DemoSkillGaps, (g: SkillGap) => Badge(g.requiredLevel))
            == [Advanced, Advanced, Intermediate, Intermediate, Basic]
  {
  }

  /** None of the demo gap names is a key of the prerequisite table, 'Circuit Design' among
      them (the key is spelt 'Circuit design'), so every demo journey node has no
      prerequisites. */
  lemma DemoGapsHaveNoPrerequisites()
    ensures Prerequisites("Circuit Design") == []
    ensures forall i :: 0 <= i < |DemoSkillGaps| ==> Prerequisites(DemoSkillGaps[i].skill) == []
    ensures forall n :: n in GenerateSkillJourney(DemoSkillGaps) ==> n.prerequisites == []
  {
    JourneyNodesFromGaps(DemoSkillGaps);
  }

  /** The score the analysis computes for the page's inputs. */
  function AnalysisScore(app: AppState, sample: Profile, rolls: seq<Roll>): (score: int)
    requires |rolls| == |GetSkillsByTrade(AnalysisInputs(app, sample).trade)|
    ensures score <= 100
  {
    var inputs := AnalysisInputs(app, sample);
    AnalyzeCompatibility(inputs.skills, inputs.trade, inputs.answers, rolls).score
  }

  /** The matched skills the page lists for its inputs. */
  function AnalysisMatches(app: AppState, sample: Profile): seq<string>
  {
    var inputs := AnalysisInputs(app, sample);
    MatchedSkills(inputs.skills, GetSkillsByTrade(inputs.trade))
  }

  /** A score stored and then replaced leaves no trace. */
  lemma ScoreOverwritten(state: AppState, first: int, second: int)
    ensures Reduce(Reduce(state, SetCompatibilityScore(first)), SetCompatibilityScore(second))
            == Reduce(state, SetCompatibilityScore(second))
  {
    LastSetWins(state, SetCompatibilityScore(first), SetCompatibilityScore(second));
  }

  /** The demo gaps need 480 hours, shown as a journey of 3 to 6 months. */
  lemma DemoJourneyMonths()
    ensures TotalHours(DemoSkillGaps) == 480
    ensures MonthRange(DemoSkillGaps) == (3, 6)
  {
    var g := DemoSkillGaps;
    assert g[..1][..0] == [];
    assert TotalHours(g[..1]) == 120;
    assert g[..2][..1] == g[..1];
    assert TotalHours(g[..2]) == 240;
    assert g[..3][..2] == g[..2];
    assert TotalHours(g[..3]) == 300;
    assert g[..4][..3] == g[..3];
    assert TotalHours(g[..4]) == 400;
    assert g[..|g| - 1] == g[..4];
  }

  // ---------------------------------------------------------------- page state

  /** The page's state as a value. */
  datatype PageState = PageState(
    app: AppState, isLoading: bool, skillJourney: seq<SkillNode>, matchedSkills: seq<string>,
    completedSkills: seq<string>, currentLearningSkill: Option<string>,
    learningProgress: map<string, int>, showVideoInterface: bool, showToast: Option<string>)

  /** The page's own state, the application state it reads and writes, and the shared demo
      controller it reports learning to. */
  class ResultsPage {
    const controller: DemoController
    const sample: Profile
    var app: AppState
    var isLoading: bool
    var skillJourney: seq<SkillNode>
    var matchedSkills: seq<string>
    var completedSkills: seq<string>
    var currentLearningSkill: Option<string>
    var learningProgress: map<string, int>
    var showVideoInterface: bool
    var showToast: Option<string>

    /** The page's state as a value. */
    function State(): PageState
      reads this
    {
      PageState(app, isLoading, skillJourney, matchedSkills, completedSkills, currentLearningSkill,
                learningProgress, showVideoInterface, showToast)
    }

    predicate Valid()
      reads this, controller
    {
      controller.Valid()
    }

    constructor(app0: AppState, demo: DemoController)
      requires demo.Valid()
      ensures Valid() && controller == demo && sample == SampleProfile && app == app0 && isLoading
      ensures skillJourney == [] && matchedSkills == [] && completedSkills == []
      ensures currentLearningSkill == None && learningProgress == map[]
      ensures !showVideoInterface && showToast == None
    {
      controller := demo;
      sample := SampleProfile;
      app := app0;
      isLoading := true;
      skillJourney := [];
      matchedSkills := [];
      completedSkills := [];
      currentLearningSkill := None;
      learningProgress := map[];
      showVideoInterface := false;
      showToast := None;
    }

    /** The analysis effect: score the chosen inputs, store the fixed demo gaps and their
        journey, and list the resume skills that match the trade. `rolls` are the random
        draws of the gap computation. The demo score 65 set for an incomplete assessment is
        overwritten by the computed score straight away. */
    method AnalyzeResults(rolls: seq<Roll>)
      requires |rolls| == |GetSkillsByTrade(AnalysisInputs(app, sample).trade)|
      modifies this
      ensures State() == old(State()).(
        app := Reduce(Reduce(old(app), SetCompatibilityScore(AnalysisScore(old(app), sample, rolls))),
                      SetSkillGaps(DemoSkillGaps)),
        skillJourney := GenerateSkillJourney(DemoSkillGaps),
        matchedSkills := AnalysisMatches(old(app), sample), isLoading := false)
    {
      var score, matched := AnalysisScore(app, sample, rolls), AnalysisMatches(app, sample);
      if app.selectedTrade.None? || app.resumeSkills == [] {
        var before := app;
        app := Reduce(app, SetCompatibilityScore(65));
        ScoreOverwritten(before, 65, score);
      }
      ShowAnalysis(score, DemoSkillGaps, matched);
    }

    /** The state updates at the end of the analysis. */
    method ShowAnalysis(score: int, gaps: seq<SkillGap>, matched: seq<string>)
      modifies this
      ensures State() == old(State()).(app := Reduce(Reduce(old(app), SetCompatibilityScore(score)), SetSkillGaps(gaps)),
                                       skillJourney := GenerateSkillJourney(gaps), matchedSkills := matched,
                                       isLoading := false)
    {
      app := Reduce(Reduce(app, SetCompatibilityScore(score)), SetSkillGaps(gaps));
      skillJourney := GenerateSkillJourney(gaps);
      matchedSkills := matched;
      isLoading := false;
    }

    /** `handleStartLearning`. */
    method HandleStartLearning(skillName: string)
      requires Valid()
      modifies this, controller
      ensures Valid()
      ensures State() == old(State()).(currentLearningSkill := Some(skillName), showVideoInterface := true)
      ensures controller.State() == StartedLearning(old(controller.State()), skillName)
    {
      currentLearningSkill := Some(skillName);
      showVideoInterface := true;
      controller.StartLearning(skillName);
    }

    /** `handleCompleteSkill`: nothing without a current skill (the empty name counts as
        none); otherwise the skill is appended to the completed list, its progress is 100,
        the controller records it, a toast names it, and the video closes. */
    method HandleCompleteSkill()
      requires Valid()
      modifies this, controller
      ensures Valid()
      ensures old(currentLearningSkill).None? || old(currentLearningSkill).value == "" ==>
        State() == old(State()) && controller.State() == old(controller.State())
      ensures old(currentLearningSkill).Some? && old(currentLearningSkill).value != "" ==>
        var skill := old(currentLearningSkill).value;
        State() == old(State()).(completedSkills := old(completedSkills) + [skill],
                                 learningProgress := old(learningProgress)[skill := 100],
                                 currentLearningSkill := None, showVideoInterface := false,
                                 showToast := Some("Great job! " + skill + " completed. Ready for the next skill?")) &&
        controller.State() == CompletedSkill(old(controller.State()), skill)
    {
      if currentLearningSkill.Some? && currentLearningSkill.value != "" {
        var skill := currentLearningSkill.value;
        completedSkills := completedSkills + [skill];
        learningProgress := learningProgress[skill := 100];
        controller.CompleteSkill(skill);
        showToast := Some("Great job! " + skill + " completed. Ready for the next skill?");
        currentLearningSkill := None;
        showVideoInterface := false;
      }
    }

    /** The skill the page highlights next. */
    function NextRecommended(): Option<string>
      reads this
    {
      NextRecommendedSkill(app.skillGaps, completedSkills)
    }
  }
}
