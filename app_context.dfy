/** The application-wide reducer. Every action returns a new state built from the old one
    with one part replaced; the reducer never changes its input. */
module AppContext {
  import opened Text
  import opened Types

  const EmptyAnswers: QuestionAnswers := QuestionAnswers("", "", "", "", "")

  /** The state the application starts from and returns to on reset. */
  const InitialState: AppState := AppState(None, None, [], EmptyAnswers, 0, [], false)

  /** The dispatchable actions; `Unrecognised` stands for any other `type` tag. */
  datatype Action =
    | SetSelectedTrade(trade: Option<Trade>)
    | SetResumeFile(file: Option<UploadedFile>)
    | SetResumeSkills(skills: seq<string>)
    | UpdateQuestionAnswer(key: AnswerKey, value: string)
    | SetCompatibilityScore(score: int)
    | SetSkillGaps(gaps: seq<SkillGap>)
    | SetIsAnalyzing(analyzing: bool)
    | ResetApp
    | Unrecognised(actionType: string)

  /** The separately settable parts of the state; each answer is a part of its own. */
  datatype Field =
    | TradeField
    | FileField
    | SkillsField
    | AnswerField(key: AnswerKey)
    | ScoreField
    | GapsField
    | AnalyzingField

  /** `a` and `b` agree on the part `f`. */
  predicate SameAt(a: AppState, b: AppState, f: Field)
  {
    match f
    case TradeField => a.selectedTrade == b.selectedTrade
    case FileField => a.resumeFile == b.resumeFile
    case SkillsField => a.resumeSkills == b.resumeSkills
    case AnswerField(k) => Get(a.questionAnswers, k) == Get(b.questionAnswers, k)
    case ScoreField => a.compatibilityScore == b.compatibilityScore
    case GapsField => a.skillGaps == b.skillGaps
    case AnalyzingField => a.isAnalyzing == b.isAnalyzing
  }

  /** The actions that write one part of the state. */
  predicate IsSetter(action: Action)
  {
    !action.ResetApp? && !action.Unrecognised?
  }

  /** The part a setter writes. */
  function Target(action: Action): Field
    requires IsSetter(action)
  {
    match action
    case SetSelectedTrade(_) => TradeField
    case SetResumeFile(_) => FileField
    case SetResumeSkills(_) => SkillsField
    case UpdateQuestionAnswer(k, _) => AnswerField(k)
    case SetCompatibilityScore(_) => ScoreField
    case SetSkillGaps(_) => GapsField
    case SetIsAnalyzing(_) => AnalyzingField
  }

  /** `s` holds the payload of the setter `action` in the part it writes. */
  predicate Holds(s: AppState, action: Action)
    requires IsSetter(action)
  {
    match action
    case SetSelectedTrade(t) => s.selectedTrade == t
    case SetResumeFile(f) => s.resumeFile == f
    case SetResumeSkills(k) => s.resumeSkills == k
    case UpdateQuestionAnswer(k, v) => Get(s.questionAnswers, k) == v
    case SetCompatibilityScore(n) => s.compatibilityScore == n
    case SetSkillGaps(g) => s.skillGaps == g
    case SetIsAnalyzing(b) => s.isAnalyzing == b
  }

  /** `appReducer`. */
  function Reduce(state: AppState, action: Action): (r: AppState)
    ensures IsSetter(action) ==> Holds(r, action)
    ensures IsSetter(action) ==> forall f :: f != Target(action) ==> SameAt(state, r, f)
    ensures action.ResetApp? ==> r == InitialState
    ensures action.Unrecognised? ==> r == state
  {
    match action
    case SetSelectedTrade(t) => state.(selectedTrade := t)
    case SetResumeFile(f) => state.(resumeFile := f)
    case SetResumeSkills(k) => state.(resumeSkills := k)
    case UpdateQuestionAnswer(k, v) => state.(questionAnswers := With(state.questionAnswers, k, v))
    case SetCompatibilityScore(n) => state.(compatibilityScore := n)
    case SetSkillGaps(g) => state.(skillGaps := g)
    case SetIsAnalyzing(b) => state.(isAnalyzing := b)
    case ResetApp => InitialState
    case Unrecognised(_) => state
  }

  /** `useReducer` applying the dispatched actions one after another. */
  function Replay(state: AppState, actions: seq<Action>): AppState
    decreases |actions|
  {
    if actions == [] then state else Replay(Reduce(state, actions[0]), actions[1..])
  }

  /** The initial state: no trade, no file, no skills, every answer empty, score 0, no gaps,
      not analysing. */
  lemma InitialStateIsEmpty()
    ensures InitialState.selectedTrade == None && InitialState.resumeFile == None
    ensures InitialState.resumeSkills == [] && InitialState.skillGaps == []
    ensures forall k :: Get(InitialState.questionAnswers, k) == ""
    ensures InitialState.compatibilityScore == 0 && !InitialState.isAnalyzing
  {
  }

  /** Two states that agree on every part are the same state. */
  lemma SameEverywhere(a: AppState, b: AppState)
    requires forall f :: SameAt(a, b, f)
    ensures a == b
  {
    assert SameAt(a, b, TradeField) && SameAt(a, b, FileField) && SameAt(a, b, SkillsField);
    assert SameAt(a, b, ScoreField) && SameAt(a, b, GapsField) && SameAt(a, b, AnalyzingField);
    assert SameAt(a, b, AnswerField(Motivation)) && SameAt(a, b, AnswerField(HandsOn));
    assert SameAt(a, b, AnswerField(PhysicalWork)) && SameAt(a, b, AnswerField(ProblemSolving));
    assert SameAt(a, b, AnswerField(Availability));
  }

  /** Of two writes to the same part, the later one alone decides the result. */
  lemma LastSetWins(state: AppState, first: Action, second: Action)
    requires IsSetter(first) && IsSetter(second) && Target(first) == Target(second)
    ensures Reduce(Reduce(state, first), second) == Reduce(state, second)
  {
    var both := Reduce(Reduce(state, first), second);
    var last := Reduce(state, second);
    forall f
      ensures SameAt(both, last, f)
    {
      if f == Target(second) {
        HoldsDecides(both, last, second);
      }
    }
    SameEverywhere(both, last);
  }

  /** Two states holding the same setter's payload agree on the part it writes. */
  lemma HoldsDecides(a: AppState, b: AppState, action: Action)
    requires IsSetter(action) && Holds(a, action) && Holds(b, action)
    ensures SameAt(a, b, Target(action))
  {
  }

  /** Resetting twice is resetting once. */
  lemma ResetIdempotent(state: AppState)
    ensures Reduce(Reduce(state, ResetApp), ResetApp) == Reduce(state, ResetApp)
  {
  }

  /** After a trailing reset nothing dispatched before it matters. */
  lemma {:induction false} ReplayEndingInReset(state: AppState, actions: seq<Action>)
    ensures Replay(state, actions + [ResetApp]) == InitialState
    decreases |actions|
  {
    if actions == [] {
      assert Replay(Reduce(state, ResetApp), []) == InitialState;
    } else {
      assert (actions + [ResetApp])[1..] == actions[1..] + [ResetApp];
      ReplayEndingInReset(Reduce(state, actions[0]), actions[1..]);
    }
  }

  /** A part that no dispatched action writes or resets keeps its value. */
  lemma {:induction false} ReplayKeepsUntouched(state: AppState, actions: seq<Action>, f: Field)
    requires forall i :: 0 <= i < |actions| ==>
      !actions[i].ResetApp? && (IsSetter(actions[i]) ==> Target(actions[i]) != f)
    ensures SameAt(state, Replay(state, actions), f)
    decreases |actions|
  {
    if actions != [] {
      var next := Reduce(state, actions[0]);
      assert SameAt(state, next, f);
      ReplayKeepsUntouched(next, actions[1..], f);
      SameAtTrans(state, next, Replay(next, actions[1..]), f);
    }
  }

  lemma SameAtTrans(a: AppState, b: AppState, c: AppState, f: Field)
    requires SameAt(a, b, f) && SameAt(b, c, f)
    ensures SameAt(a, c, f)
  {
  }
}
