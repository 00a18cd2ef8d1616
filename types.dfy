/** The shared data model: trades, skills, gaps, journey nodes, questionnaire answers and the
    application state. */
module Types {
  import opened Text

  datatype Trade = Plumber | Electrician

  /** The trade's identifier as it appears in routes and lookups. */
  function TradeName(t: Trade): (r: string)
    ensures r == "plumber" || r == "electrician"
  {
    match t
    case Plumber => "plumber"
    case Electrician => "electrician"
  }

  datatype Category = Basic | Intermediate | Advanced

  /** A catalogue skill; `importance` is meant to lie in 1..10. */
  datatype Skill = Skill(name: string, category: Category, importance: int)

  datatype SkillGap = SkillGap(skill: string, currentLevel: int, requiredLevel: int)

  datatype Priority = High | Medium | Low

  datatype SkillNode = SkillNode(
    skill: string,
    currentLevel: int,
    targetLevel: int,
    priority: Priority,
    estimatedHours: int,
    prerequisites: seq<string>)

  /** The five questionnaire keys. */
  datatype AnswerKey = Motivation | HandsOn | PhysicalWork | ProblemSolving | Availability

  datatype QuestionAnswers = QuestionAnswers(
    motivation: string,
    handsOn: string,
    physicalWork: string,
    problemSolving: string,
    availability: string)

  function Get(a: QuestionAnswers, k: AnswerKey): string
  {
    match k
    case Motivation => a.motivation
    case HandsOn => a.handsOn
    case PhysicalWork => a.physicalWork
    case ProblemSolving => a.problemSolving
    case Availability => a.availability
  }

  /** `{ ...answers, [k]: v }`. */
  function With(a: QuestionAnswers, k: AnswerKey, v: string): (r: QuestionAnswers)
    ensures Get(r, k) == v
    ensures forall k' :: k' != k ==> Get(r, k') == Get(a, k')
  {
    match k
    case Motivation => a.(motivation := v)
    case HandsOn => a.(handsOn := v)
    case PhysicalWork => a.(physicalWork := v)
    case ProblemSolving => a.(problemSolving := v)
    case Availability => a.(availability := v)
  }

  /** The parts of a browser `File` the program looks at. */
  datatype UploadedFile = UploadedFile(name: string, mimeType: string)

  datatype AppState = AppState(
    selectedTrade: Option<Trade>,
    resumeFile: Option<UploadedFile>,
    resumeSkills: seq<string>,
    questionAnswers: QuestionAnswers,
    compatibilityScore: int,
    skillGaps: seq<SkillGap>,
    isAnalyzing: bool)

  datatype CompatibilityResult = CompatibilityResult(score: int, gaps: seq<SkillGap>)
}
