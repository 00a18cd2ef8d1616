/** Compatibility scoring and the learning journey: skill match, skill gaps, the five
    questionnaire bonuses, the sorted journey and the prerequisite table. */
module AiProcessor {
  import opened Text
  import opened Seqs
  import opened Types
  import opened SkillsData

  /** The name test shared by skill match, gaps and the matched-skills list: either
      lowercased name contains the other. An empty user entry therefore matches anything. */
  predicate Matches(user: string, required: string)
  {
    Contains(LowerStr(user), LowerStr(required)) || Contains(LowerStr(required), LowerStr(user))
  }

  /** `userSkills.some(skill => Matches(skill, name))`. */
  predicate HasSkill(userSkills: seq<string>, name: string)
  {
    exists i :: 0 <= i < |userSkills| && Matches(userSkills[i], name)
  }

  lemma EmptyEntryMatchesAll(name: string)
    ensures Matches("", name)
  {
    ContainsEmpty(LowerStr(name));
  }

  /** The importance of the required skills the user has, summed in list order. */
  function MatchedWeight(userSkills: seq<string>, required: seq<Skill>): int
  {
    if required == [] then 0
    else
      var last := required[|required| - 1];
      MatchedWeight(userSkills, required[..|required| - 1])
        + (if HasSkill(userSkills, last.name) then last.importance else 0)
  }

  /** The skill match of a list against the required skills: the matched share of the total
      importance, or 0 when the total is not positive. */
  function SkillMatch(userSkills: seq<string>, required: seq<Skill>): real
  {
    var total := TotalImportance(required);
    if total > 0 then MatchedWeight(userSkills, required) as real / total as real else 0.0
  }

  /** `calculateSkillMatch`: one pass over the required skills accumulating the matched and
      the total importance. */
  method CalculateSkillMatch(userSkills: seq<string>, required: seq<Skill>) returns (r: real)
    ensures r == SkillMatch(userSkills, required)
  {
    var matchScore := 0;
    var totalWeight := 0;
    var i := 0;
    while i < |required|
      invariant 0 <= i <= |required|
      invariant matchScore == MatchedWeight(userSkills, required[..i])
      invariant totalWeight == TotalImportance(required[..i])
    {
      assert required[..i + 1][..i] == required[..i];
      if HasSkill(userSkills, required[i].name) {
        matchScore := matchScore + required[i].importance;
      }
      totalWeight := totalWeight + required[i].importance;
      i := i + 1;
    }
    assert required[..i] == required;
    r := if totalWeight > 0 then matchScore as real / totalWeight as real else 0.0;
  }

  lemma {:induction false} MatchedWeightBounds(userSkills: seq<string>, required: seq<Skill>)
    requires forall i :: 0 <= i < |required| ==> required[i].importance >= 0
    ensures 0 <= MatchedWeight(userSkills, required) <= TotalImportance(required)
    decreases |required|
  {
    if required != [] {
      MatchedWeightBounds(userSkills, required[..|required| - 1]);
    }
  }

  lemma {:induction false} NoUserSkillsNoWeight(required: seq<Skill>)
    ensures MatchedWeight([], required) == 0
    decreases |required|
  {
    if required != [] {
      NoUserSkillsNoWeight(required[..|required| - 1]);
    }
  }

  lemma {:induction false} AllMatchedFullWeight(userSkills: seq<string>, required: seq<Skill>)
    requires forall i :: 0 <= i < |required| ==> HasSkill(userSkills, required[i].name)
    ensures MatchedWeight(userSkills, required) == TotalImportance(required)
    decreases |required|
  {
    if required != [] {
      AllMatchedFullWeight(userSkills, required[..|required| - 1]);
    }
  }

  /** The skill match lies in [0, 1] whenever no importance is negative; it is 0 for an
      empty required list or an empty user list. */
  lemma SkillMatchBounds(userSkills: seq<string>, required: seq<Skill>)
    requires forall i :: 0 <= i < |required| ==> required[i].importance >= 0
    ensures 0.0 <= SkillMatch(userSkills, required) <= 1.0
    ensures required == [] ==> SkillMatch(userSkills, required) == 0.0
    ensures userSkills == [] ==> SkillMatch(userSkills, required) == 0.0
  {
    MatchedWeightBounds(userSkills, required);
    NoUserSkillsNoWeight(required);
  }

  /** A user list holding an empty entry matches every skill, so against a catalogue with
      positive total importance its match is 1. */
  lemma EmptyEntryFullMatch(userSkills: seq<string>, required: seq<Skill>)
    requires "" in userSkills
    requires TotalImportance(required) > 0
    ensures SkillMatch(userSkills, required) == 1.0
  {
    forall i | 0 <= i < |required|
      ensures HasSkill(userSkills, required[i].name)
    {
      EmptyEntryMatchesAll(required[i].name);
      var k :| 0 <= k < |userSkills| && userSkills[k] == "";
      assert Matches(userSkills[k], required[i].name);
    }
    AllMatchedFullWeight(userSkills, required);
  }

  /** One draw of `Math.floor(Math.random() * 4)`. */
  type Roll = r: int | 0 <= r < 4

  function RequiredLevel(c: Category): (level: int)
    ensures level == 6 || level == 8 || level == 10
  {
    match c
    case Basic => 6
    case Intermediate => 8
    case Advanced => 10
  }

  /** The gap record built for one required skill before filtering: a matched skill is at
      level 3 + roll, an unmatched one at 0. */
  function GapFor(userSkills: seq<string>, required: Skill, roll: Roll): (g: SkillGap)
    ensures g.skill == required.name
    ensures g.requiredLevel == RequiredLevel(required.category)
    ensures HasSkill(userSkills, required.name) ==> 3 <= g.currentLevel <= 6
    ensures !HasSkill(userSkills, required.name) ==> g.currentLevel == 0
  {
    SkillGap(required.name, if HasSkill(userSkills, required.name) then 3 + roll else 0,
             RequiredLevel(required.category))
  }

  function AllGaps(userSkills: seq<string>, required: seq<Skill>, rolls: seq<Roll>): (gs: seq<SkillGap>)
    requires |rolls| == |required|
    ensures |gs| == |required|
    ensures forall i :: 0 <= i < |required| ==> gs[i] == GapFor(userSkills, required[i], rolls[i])
  {
    seq(|required|, i requires 0 <= i < |required| => GapFor(userSkills, required[i], rolls[i]))
  }

  predicate IsGap(g: SkillGap)
  {
    g.currentLevel < g.requiredLevel
  }

  /** `calculateSkillGaps`, with `rolls[i]` the random draw for the i-th required skill (used
      only when that skill is matched). */
  function CalculateSkillGaps(userSkills: seq<string>, required: seq<Skill>, rolls: seq<Roll>): (gs: seq<SkillGap>)
    requires |rolls| == |required|
    ensures |gs| <= |required|
  {
    Filter(AllGaps(userSkills, required, rolls), IsGap)
  }

  /** The gaps keep the required skills' order, and a required skill's record is emitted
      exactly when its current level is below its required level. */
  lemma GapsSelection(userSkills: seq<string>, required: seq<Skill>, rolls: seq<Roll>)
    requires |rolls| == |required|
    ensures IsSubseq(CalculateSkillGaps(userSkills, required, rolls), AllGaps(userSkills, required, rolls))
    ensures forall i :: 0 <= i < |required| ==>
      ((GapFor(userSkills, required[i], rolls[i]) in CalculateSkillGaps(userSkills, required, rolls))
        <==> IsGap(GapFor(userSkills, required[i], rolls[i])))
  {
    var all := AllGaps(userSkills, required, rolls);
    FilterIsSubseq(all, IsGap);
    forall i | 0 <= i < |required|
      ensures GapFor(userSkills, required[i], rolls[i]) in CalculateSkillGaps(userSkills, required, rolls)
        ==> IsGap(GapFor(userSkills, required[i], rolls[i]))
    {
      var g := GapFor(userSkills, required[i], rolls[i]);
      if g in CalculateSkillGaps(userSkills, required, rolls) {
        var k :| 0 <= k < |CalculateSkillGaps(userSkills, required, rolls)| &&
          CalculateSkillGaps(userSkills, required, rolls)[k] == g;
      }
    }
    assert forall i :: 0 <= i < |required| ==> all[i] == GapFor(userSkills, required[i], rolls[i]);
  }

  /** What the emitted records look like: required level 6/8/10, current level 0 or 3..6,
      and always below the required level. */
  lemma GapLevels(userSkills: seq<string>, required: seq<Skill>, rolls: seq<Roll>)
    requires |rolls| == |required|
    ensures forall g :: g in CalculateSkillGaps(userSkills, required, rolls) ==>
      (g.requiredLevel == 6 || g.requiredLevel == 8 || g.requiredLevel == 10) &&
      (g.currentLevel == 0 || 3 <= g.currentLevel <= 6) &&
      g.currentLevel < g.requiredLevel
  {
    var gs := CalculateSkillGaps(userSkills, required, rolls);
    var all := AllGaps(userSkills, required, rolls);
    forall g | g in gs
      ensures (g.requiredLevel == 6 || g.requiredLevel == 8 || g.requiredLevel == 10) &&
        (g.currentLevel == 0 || 3 <= g.currentLevel <= 6) && g.currentLevel < g.requiredLevel
    {
      var k :| 0 <= k < |gs| && gs[k] == g;
      assert g in all;
      var i :| 0 <= i < |all| && all[i] == g;
    }
  }

  /** An unmatched skill always appears at level 0; a matched intermediate or advanced skill
      always appears; a matched basic skill is dropped exactly when its level is 6. */
  lemma GapsByCase(userSkills: seq<string>, required: seq<Skill>, rolls: seq<Roll>, i: nat)
    requires |rolls| == |required| && i < |required|
    ensures var gs := CalculateSkillGaps(userSkills, required, rolls);
      var name := required[i].name;
      var level := RequiredLevel(required[i].category);
      (!HasSkill(userSkills, name) ==> SkillGap(name, 0, level) in gs) &&
      (HasSkill(userSkills, name) && required[i].category != Basic ==>
        SkillGap(name, rolls[i] as int + 3, level) in gs) &&
      (HasSkill(userSkills, name) && required[i].category == Basic ==>
        (SkillGap(name, rolls[i] as int + 3, level) in gs <==> rolls[i] != 3))
  {
    GapsSelection(userSkills, required, rolls);
  }

  /** `getSkillPrerequisites`: an exact, case-sensitive lookup in a six-entry table. */
  function Prerequisites(skillName: string): (r: seq<string>)
    ensures r != [] <==> skillName in PrerequisiteKeys
    ensures r != [] ==> |r| == 2
  {
    if skillName == "Circuit design" then ["Electrical code knowledge", "Wiring installation"]
    else if skillName == "Gas line work" then ["Pipe fitting", "Safety protocols"]
    else if skillName == "Motor controls" then ["Circuit design", "Electrical code knowledge"]
    else if skillName == "Load calculations" then ["Mathematical skills", "Circuit design"]
    else if skillName == "Backflow prevention" then ["Water systems", "Valve installation"]
    else if skillName == "Problem diagnosis" then ["Troubleshooting", "Tool proficiency"]
    else []
  }

  const PrerequisiteKeys: set<string> := {"Circuit design", "Gas line work", "Motor controls",
    "Load calculations", "Backflow prevention", "Problem diagnosis"}

  /** Every prerequisite named in the table is a catalogue skill of some trade. */
  lemma PrerequisitesInCatalogue(skillName: string)
    ensures forall p :: p in Prerequisites(skillName) ==>
      p in Names(ElectricianSkills + TransferableSkills) || p in Names(PlumberSkills + TransferableSkills)
  {
    var e := Names(ElectricianSkills + TransferableSkills);
    var pl := Names(PlumberSkills + TransferableSkills);
    assert e[2] == "Electrical code knowledge" && e[1] == "Wiring installation";
    assert e[0] == "Circuit design" && e[3] == "Safety protocols" && e[4] == "Troubleshooting";
    assert e[15 + 7] == "Mathematical skills";
    assert pl[0] == "Pipe fitting" && pl[3] == "Water systems" && pl[7] == "Valve installation";
    assert pl[5] == "Tool proficiency";
  }

  function PriorityOf(requiredLevel: int): (p: Priority)
    ensures p == High <==> requiredLevel >= 9
    ensures p == Medium <==> 7 <= requiredLevel < 9
    ensures p == Low <==> requiredLevel < 7
  {
    if requiredLevel >= 9 then High else if requiredLevel >= 7 then Medium else Low
  }

  function PriorityRank(p: Priority): (n: int)
    ensures 1 <= n <= 3
  {
    match p
    case High => 3
    case Medium => 2
    case Low => 1
  }

  /** The journey node for one gap: 20 hours per missing level. */
  function ToNode(g: SkillGap): (n: SkillNode)
    ensures n.skill == g.skill && n.currentLevel == g.currentLevel && n.targetLevel == g.requiredLevel
    ensures n.estimatedHours == 20 * (g.requiredLevel - g.currentLevel)
    ensures n.priority == PriorityOf(g.requiredLevel)
    ensures n.prerequisites == Prerequisites(g.skill)
  {
    SkillNode(g.skill, g.currentLevel, g.requiredLevel, PriorityOf(g.requiredLevel),
              (g.requiredLevel - g.currentLevel) * 20, Prerequisites(g.skill))
  }

  /** The comparator's order: higher priority first, then fewer prerequisites. */
  function JourneyKey(n: SkillNode): Rank
  {
    Rank(PriorityRank(n.priority), -|n.prerequisites|)
  }

  /** `generateSkillJourney`. */
  function GenerateSkillJourney(gaps: seq<SkillGap>): (nodes: seq<SkillNode>)
    ensures |nodes| == |gaps|
  {
    SortDesc(Map(gaps, ToNode), JourneyKey)
  }

  /** Nodes that the comparator keeps in order: higher priority first, then the same
      priority with no more prerequisites. */
  predicate JourneyBefore(a: SkillNode, b: SkillNode)
  {
    PriorityRank(a.priority) > PriorityRank(b.priority) ||
    (a.priority == b.priority && |a.prerequisites| <= |b.prerequisites|)
  }

  /** Ordered by the comparator's key means ordered by priority, then prerequisite count. */
  lemma AtLeastIsJourneyBefore(a: SkillNode, b: SkillNode)
    requires AtLeast(JourneyKey(a), JourneyKey(b))
    ensures JourneyBefore(a, b)
  {
    if PriorityRank(a.priority) == PriorityRank(b.priority) {
      assert a.priority == b.priority;
    }
  }

  /** The journey is ordered by priority rank non-increasing and, within one priority, by
      prerequisite count non-decreasing. */
  lemma JourneySorted(gaps: seq<SkillGap>)
    ensures var nodes := GenerateSkillJourney(gaps);
      forall i, j :: 0 <= i < j < |nodes| ==> JourneyBefore(nodes[i], nodes[j])
  {
    var nodes := GenerateSkillJourney(gaps);
    SortDescSorted(Map(gaps, ToNode), JourneyKey);
    forall i, j | 0 <= i < j < |nodes|
      ensures JourneyBefore(nodes[i], nodes[j])
    {
      AtLeastIsJourneyBefore(nodes[i], nodes[j]);
    }
  }

  /** Nodes equal in both keys keep their input order. */
  lemma JourneyStable(gaps: seq<SkillGap>)
    ensures forall k ::
      WithKey(GenerateSkillJourney(gaps), JourneyKey, k) == WithKey(Map(gaps, ToNode), JourneyKey, k)
  {
    forall k
      ensures WithKey(GenerateSkillJourney(gaps), JourneyKey, k) == WithKey(Map(gaps, ToNode), JourneyKey, k)
    {
      SortDescStable(Map(gaps, ToNode), JourneyKey, k);
    }
  }

  /** The journey is a permutation of the gaps' nodes, ordered by priority rank non-increasing
      and within one priority by prerequisite count non-decreasing, and nodes equal in both
      keep their input order. */
  lemma JourneyOrder(gaps: seq<SkillGap>)
    ensures multiset(GenerateSkillJourney(gaps)) == multiset(Map(gaps, ToNode))
    ensures var nodes := GenerateSkillJourney(gaps);
      forall i, j :: 0 <= i < j < |nodes| ==> JourneyBefore(nodes[i], nodes[j])
    ensures forall k ::
      WithKey(GenerateSkillJourney(gaps), JourneyKey, k) == WithKey(Map(gaps, ToNode), JourneyKey, k)
  {
    JourneySorted(gaps);
    JourneyStable(gaps);
  }

  /** Each journey node comes from one input gap, with 20 hours per level of difference. */
  lemma JourneyNodesFromGaps(gaps: seq<SkillGap>)
    ensures forall n :: n in GenerateSkillJourney(gaps) ==>
      exists g :: g in gaps && n == ToNode(g)
  {
    JourneyOrder(gaps);
    forall n | n in GenerateSkillJourney(gaps)
      ensures exists g :: g in gaps && n == ToNode(g)
    {
      assert n in multiset(Map(gaps, ToNode));
      var i :| 0 <= i < |gaps| && Map(gaps, ToNode)[i] == n;
      assert gaps[i] in gaps;
    }
  }

  const MotivationKeywords: seq<string> := ["passionate", "career change", "stable", "growth", "opportunity"]
  const HandsOnKeywords: seq<string> := ["fix", "repair", "build", "diy", "tools", "hands-on", "construction", "mechanical"]
  const ProblemSolvingKeywords: seq<string> := ["analyze", "solve", "debug", "troubleshoot", "systematic", "logical", "step"]

  /** The keywords from `keywords` that occur in the lowercased answer. */
  function Hits(answer: string, keywords: seq<string>): (r: seq<string>)
    ensures |r| <= |keywords|
    ensures forall k :: k in r ==> k in keywords && Contains(LowerStr(answer), k)
    ensures forall i :: 0 <= i < |keywords| && Contains(LowerStr(answer), keywords[i]) ==> keywords[i] in r
  {
    Filter(keywords, (k: string) => Contains(LowerStr(answer), k))
  }

  /** `getMotivationScore`. */
  function MotivationScore(answer: string): (r: real)
    ensures r == 0.8 || r == 0.4
    ensures r == 0.8 <==> exists i :: 0 <= i < |MotivationKeywords| && Contains(LowerStr(answer), MotivationKeywords[i])
  {
    if exists i :: 0 <= i < |MotivationKeywords| && Contains(LowerStr(answer), MotivationKeywords[i])
    then 0.8 else 0.4
  }

  /** `getHandsOnScore`: 0.2 per keyword hit, at most 1. */
  function HandsOnScore(answer: string): (r: real)
    ensures 0.0 <= r <= 1.0
    ensures r == 0.0 <==> Hits(answer, HandsOnKeywords) == []
    ensures r == 1.0 <==> |Hits(answer, HandsOnKeywords)| >= 5
    ensures |Hits(answer, HandsOnKeywords)| < 5 ==> r == 0.2 * |Hits(answer, HandsOnKeywords)| as real
  {
    var hits := |Hits(answer, HandsOnKeywords)| as real;
    if hits * 0.2 < 1.0 then hits * 0.2 else 1.0
  }

  /** `getProblemSolvingScore`: 0.15 per keyword hit, at most 1 (reached only with all seven). */
  function ProblemSolvingScore(answer: string): (r: real)
    ensures 0.0 <= r <= 1.0
    ensures r == 0.0 <==> Hits(answer, ProblemSolvingKeywords) == []
    ensures r == 1.0 <==> |Hits(answer, ProblemSolvingKeywords)| == 7
    ensures |Hits(answer, ProblemSolvingKeywords)| < 7 ==> r == 0.15 * |Hits(answer, ProblemSolvingKeywords)| as real
  {
    var hits := |Hits(answer, ProblemSolvingKeywords)| as real;
    if hits * 0.15 < 1.0 then hits * 0.15 else 1.0
  }

  /** `getAvailabilityScore`: full-time or flexible is checked before part-time. */
  function AvailabilityScore(answer: string): (r: real)
    ensures r == 1.0 <==> Contains(LowerStr(answer), "full-time") || Contains(LowerStr(answer), "flexible")
    ensures r == 0.7 <==> !Contains(LowerStr(answer), "full-time") && !Contains(LowerStr(answer), "flexible")
                          && Contains(LowerStr(answer), "part-time")
    ensures r == 1.0 || r == 0.7 || r == 0.5
  {
    var a := LowerStr(answer);
    if Contains(a, "full-time") || Contains(a, "flexible") then 1.0
    else if Contains(a, "part-time") then 0.7
    else 0.5
  }

  /** `parseInt(answer.split(' ')[0]) || 5`: NaN and 0 are both replaced by 5. */
  function PhysicalRating(answer: string): (rating: int)
    ensures rating != 0
    ensures ParseInt(SplitBy(answer, " ")[0]).Some? && ParseInt(SplitBy(answer, " ")[0]).value != 0
            ==> rating == ParseInt(SplitBy(answer, " ")[0]).value
    ensures ParseInt(SplitBy(answer, " ")[0]) in {None, Some(0)} ==> rating == 5
  {
    var parsed := ParseInt(SplitBy(answer, " ")[0]);
    if parsed.Some? && parsed.value != 0 then parsed.value else 5
  }

  /** `getPhysicalWorkScore`: an unreadable or zero first token scores 0.5, a rating of 1 to
      10 scores a tenth of itself, which lies in [0.1, 1]. */
  function PhysicalWorkScore(answer: string): (r: real)
    ensures ParseInt(SplitBy(answer, " ")[0]) in {None, Some(0)} ==> r == 0.5
    ensures forall v :: ParseInt(SplitBy(answer, " ")[0]) == Some(v) && 1 <= v <= 10 ==>
      r == v as real / 10.0 && 0.1 <= r <= 1.0
  {
    PhysicalRating(answer) as real / 10.0
  }

  /** The characters of a decimal rendering are digits and an optional leading minus. */
  lemma IntToStringHasNoSpace(n: int)
    ensures ' ' !in IntToString(n)
  {
    var s := IntToString(n);
    if n < 0 {
      assert s == "-" + NatToString(-n);
    }
    assert forall i :: 0 <= i < |s| ==> s[i] == '-' || IsDigit(s[i]);
  }

  /** A rating written as `"<v> - <explanation>"` scores v / 10 for any v other than 0. */
  lemma PhysicalOfSerialised(v: int, explanation: string)
    requires v != 0
    ensures PhysicalWorkScore(IntToString(v) + " - " + explanation) == v as real / 10.0
  {
    var a := IntToString(v);
    IntToStringHasNoSpace(v);
    assert a + " - " + explanation == a + " " + ("- " + explanation);
    SplitAfterPlainPrefix(a, " ", "- " + explanation);
    ParseIntOfIntToString(v, []);
    assert a + [] == a;
  }

  /** The rounding of `Math.round`: halves go up. */
  function Round(x: real): (n: int)
    ensures x - 0.5 < n as real <= x + 0.5
  {
    (x + 0.5).Floor
  }

  function TotalBonus(answers: QuestionAnswers): real
  {
    MotivationScore(answers.motivation) * 0.15 + HandsOnScore(answers.handsOn) * 0.20
    + PhysicalWorkScore(answers.physicalWork) * 0.10
    + ProblemSolvingScore(answers.problemSolving) * 0.15
    + AvailabilityScore(answers.availability) * 0.10
  }

  /** `analyzeCompatibility`: the rounded percentage of skill match plus bonuses, capped at
      100 but not floored, and the gaps of the same inputs. */
  function AnalyzeCompatibility(resumeSkills: seq<string>, targetTrade: string, answers: QuestionAnswers,
                                rolls: seq<Roll>): (r: CompatibilityResult)
    requires |rolls| == |GetSkillsByTrade(targetTrade)|
    ensures r.score <= 100
    ensures r.gaps == CalculateSkillGaps(resumeSkills, GetSkillsByTrade(targetTrade), rolls)
  {
    var required := GetSkillsByTrade(targetTrade);
    var score := Round((SkillMatch(resumeSkills, required) + TotalBonus(answers)) * 100.0);
    CompatibilityResult(if score < 100 then score else 100,
                        CalculateSkillGaps(resumeSkills, required, rolls))
  }

  /** The skill match against any trade's list is at least 0. */
  lemma TradeSkillMatchNonNegative(resumeSkills: seq<string>, targetTrade: string)
    ensures SkillMatch(resumeSkills, GetSkillsByTrade(targetTrade)) >= 0.0
  {
    var required := GetSkillsByTrade(targetTrade);
    if targetTrade == "plumber" {
      KnownTradeSkills(Plumber);
    } else if targetTrade == "electrician" {
      KnownTradeSkills(Electrician);
    }
    SkillMatchBounds(resumeSkills, required);
  }

  /** With a non-negative physical rating the bonuses add up to at least 0.11: 0.06 from
      motivation and 0.05 from availability. */
  lemma BonusFloor(answers: QuestionAnswers)
    requires PhysicalRating(answers.physicalWork) >= 0
    ensures TotalBonus(answers) >= 0.11
  {
  }

  /** With a non-negative physical rating the score is at least 11. */
  lemma CompatibilityFloor(resumeSkills: seq<string>, targetTrade: string, answers: QuestionAnswers,
                           rolls: seq<Roll>)
    requires |rolls| == |GetSkillsByTrade(targetTrade)|
    requires PhysicalRating(answers.physicalWork) >= 0
    ensures AnalyzeCompatibility(resumeSkills, targetTrade, answers, rolls).score >= 11
  {
    TradeSkillMatchNonNegative(resumeSkills, targetTrade);
    BonusFloor(answers);
  }

  lemma PhysicalRatingOfMinus12()
    ensures PhysicalRating("-12") == -12
  {
    ContainsChar("-12", ' ');
    SplitWithoutSeparator("-12", " ");
    ParseIntOfIntToString(-12, []);
    assert IntToString(-12) + [] == "-12";
  }

  lemma BlankHasNoKeyword(k: string)
    requires k != []
    ensures !Contains(LowerStr(""), k)
  {
    assert LowerStr("") == [];
    ContainsInEmpty(k);
  }

  lemma BlankMotivation()
    ensures MotivationScore("") == 0.4
  {
    forall i | 0 <= i < |MotivationKeywords|
      ensures !Contains(LowerStr(""), MotivationKeywords[i])
    {
      BlankHasNoKeyword(MotivationKeywords[i]);
    }
  }

  lemma BlankHandsOn()
    ensures HandsOnScore("") == 0.0
  {
    forall i | 0 <= i < |HandsOnKeywords|
      ensures !Contains(LowerStr(""), HandsOnKeywords[i])
    {
      BlankHasNoKeyword(HandsOnKeywords[i]);
    }
    FilterNone(HandsOnKeywords, (k: string) => Contains(LowerStr(""), k));
  }

  lemma BlankProblemSolving()
    ensures ProblemSolvingScore("") == 0.0
  {
    forall i | 0 <= i < |ProblemSolvingKeywords|
      ensures !Contains(LowerStr(""), ProblemSolvingKeywords[i])
    {
      BlankHasNoKeyword(ProblemSolvingKeywords[i]);
    }
    FilterNone(ProblemSolvingKeywords, (k: string) => Contains(LowerStr(""), k));
  }

  lemma BlankAvailability()
    ensures AvailabilityScore("") == 0.5
  {
    BlankHasNoKeyword("full-time");
    BlankHasNoKeyword("flexible");
    BlankHasNoKeyword("part-time");
  }

  /** The score is only capped above: a resume with no skills, answers without keywords and
      a physical rating of -12 give a score of -1. */
  lemma CompatibilityCanBeNegative()
    ensures AnalyzeCompatibility([], "electrician", QuestionAnswers("", "", "-12", "", ""),
                                 seq(27, i => 0)).score == -1
  {
    var answers := QuestionAnswers("", "", "-12", "", "");
    var required := GetSkillsByTrade("electrician");
    assert SkillMatch([], required) == 0.0 by {
      NoUserSkillsNoWeight(required);
    }
    assert TotalBonus(answers) == -0.01 by {
      PhysicalRatingOfMinus12();
      BlankMotivation();
      BlankHandsOn();
      BlankProblemSolving();
      BlankAvailability();
    }
    assert Round(-1.0) == -1;
  }
}
