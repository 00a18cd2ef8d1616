/** The five-question questionnaire: the question table, the "<value> - <explanation>"
    encoding of the scale answer, navigation between questions, and the page state the
    handlers update. */
module QuestionFlow {
  import opened Text
  import opened Types
  import opened AppContext
  import opened AiProcessor

  datatype QuestionType = TextArea | Scale

  datatype Question = Question(id: int, question: string, kind: QuestionType, key: AnswerKey, placeholder: string)

  const Questions: seq<Question> := [
    Question(1, "What motivates you to transition into this trade?", TextArea, Motivation,
             "Tell us about your passion for this career change..."),
    Question(2, "Describe any hands-on work or DIY experience you have", TextArea, HandsOn,
             "Share your experience with tools, repairs, building projects..."),
    Question(3, "How comfortable are you with physically demanding work?", Scale, PhysicalWork,
             "Rate from 1-10 and explain your comfort level..."),
    Question(4, "Describe a complex problem you've solved and your approach", TextArea, ProblemSolving,
             "Walk us through your problem-solving process..."),
    Question(5, "What's your availability for training and apprenticeship?", TextArea, Availability,
             "Tell us about your schedule flexibility and commitment...")
  ]

  /** Question ids are 1 to 5 in order, so they are distinct, and only the third one is a
      scale question. */
  lemma QuestionsTable()
    ensures |Questions| == 5
    ensures forall i :: 0 <= i < 5 ==> Questions[i].id == i + 1
    ensures forall i :: 0 <= i < 5 ==> (Questions[i].kind == Scale <==> Questions[i].id == 3)
    ensures forall i, j :: 0 <= i < j < 5 ==> Questions[i].key != Questions[j].key
  {
  }

  /** `questions.find(q => q.id === n)`; a number that is not a question id, NaN among
      them, finds nothing. */
  function FindQuestion(n: Option<int>): (q: Option<Question>)
    ensures q.Some? <==> n.Some? && 1 <= n.value <= 5
    ensures q.Some? ==> q.value == Questions[n.value - 1] && q.value.id == n.value
  {
    if n.Some? && 1 <= n.value <= 5 then Some(Questions[n.value - 1]) else None
  }

  /** `parseInt(questionId || '1')`: a missing or empty route parameter means question 1. */
  function QuestionNumber(param: Option<string>): Option<int>
  {
    ParseInt(if param.None? || param.value == "" then "1" else param.value)
  }

  lemma NoParameterIsFirstQuestion()
    ensures FindQuestion(QuestionNumber(None)) == Some(Questions[0])
  {
    ParseIntOfIntToString(1, []);
    assert IntToString(1) + [] == "1";
  }

  /** The saved form of a scale answer: `${value} - ${explanation}`. */
  function Serialise(value: int, explanation: string): string
  {
    IntToString(value) + " - " + explanation
  }

  /** The scale value and explanation read back from a saved answer: the first " - " piece
      through `parseInt`, with NaN and 0 turned into 5, and the second piece or "". */
  function ParseScale(saved: string): (r: (int, string))
    ensures r.0 != 0
  {
    var parts := SplitBy(saved, " - ");
    var parsed := ParseInt(parts[0]);
    (if parsed.Some? && parsed.value != 0 then parsed.value else 5,
     if |parts| >= 2 then parts[1] else "")
  }

  /** Reading back a saved scale answer keeps a non-zero value and the explanation up to its
      first " - ". */
  lemma ParseSerialised(value: int, explanation: string)
    requires value != 0
    ensures ParseScale(Serialise(value, explanation)) == (value, SplitBy(explanation, " - ")[0])
  {
    var a := IntToString(value);
    IntToStringHasNoSpace(value);
    SplitAfterPlainPrefix(a, " - ", explanation);
    ParseIntOfIntToString(value, []);
    assert a + [] == a;
  }

  /** For a value from 1 to 10 and an explanation without " - ", the saved answer reads back
      exactly. */
  lemma ScaleRoundTrip(value: int, explanation: string)
    requires 1 <= value <= 10 && !Contains(explanation, " - ")
    ensures ParseScale(Serialise(value, explanation)) == (value, explanation)
  {
    ParseSerialised(value, explanation);
    SplitWithoutSeparator(explanation, " - ");
  }

  /** A saved answer whose first piece is not a number, or is 0, reloads with value 5. */
  lemma UnreadableValueIsFive(saved: string)
    requires ParseInt(SplitBy(saved, " - ")[0]) in {None, Some(0)}
    ensures ParseScale(saved).0 == 5
  {
  }

  /** A scale answer saved with a value from 1 to 10 scores value / 10 on the physical-work
      bonus, which is therefore between 0.1 and 1. */
  lemma SavedScaleScore(value: int, explanation: string)
    requires 1 <= value <= 10
    ensures PhysicalWorkScore(Serialise(value, explanation)) == value as real / 10.0
    ensures 0.1 <= PhysicalWorkScore(Serialise(value, explanation)) <= 1.0
  {
    PhysicalOfSerialised(value, explanation);
  }

  datatype Route = QuestionRoute(n: int) | ResultsRoute

  /** Where Next leads from question `n`: the next question, or the results after the
      last one. */
  function NextTarget(n: int): (r: Route)
    ensures n < |Questions| ==> r == QuestionRoute(n + 1)
    ensures n >= |Questions| ==> r == ResultsRoute
  {
    if n < |Questions| then QuestionRoute(n + 1) else ResultsRoute
  }

  /** Where Previous leads from question `n`: the question before, and nowhere from the
      first. */
  function PreviousTarget(n: int): (r: Option<Route>)
    ensures r.Some? <==> n > 1
    ensures r.Some? ==> r.value == QuestionRoute(n - 1)
  {
    if n > 1 then Some(QuestionRoute(n - 1)) else None
  }

  /** Next and Previous undo each other between questions 1 and 5. */
  lemma NextThenPrevious(n: int)
    requires 1 <= n < 5
    ensures NextTarget(n) == QuestionRoute(n + 1) && PreviousTarget(n + 1) == Some(QuestionRoute(n))
  {
  }

  /** The question page: the route's question number and the answer being edited. */
  class QuestionPage {
    const number: Option<int>
    var currentAnswer: string
    var scaleValue: int
    var scaleExplanation: string

    constructor(param: Option<string>)
      ensures number == QuestionNumber(param)
      ensures currentAnswer == "" && scaleValue == 5 && scaleExplanation == ""
    {
      number := QuestionNumber(param);
      currentAnswer := "";
      scaleValue := 5;
      scaleExplanation := "";
    }

    function Current(): Option<Question>
    {
      FindQuestion(number)
    }

    /** The effect that loads the stored answer: a non-empty scale answer is split into value
        and explanation, any other answer goes into the text box. */
    method Load(answers: QuestionAnswers)
      modifies this
      ensures Current().None? ==> currentAnswer == old(currentAnswer) && scaleValue == old(scaleValue) &&
                                  scaleExplanation == old(scaleExplanation)
      ensures Current().Some? && Current().value.kind == Scale && Get(answers, Current().value.key) != "" ==>
                (scaleValue, scaleExplanation) == ParseScale(Get(answers, Current().value.key)) &&
                currentAnswer == old(currentAnswer)
      ensures Current().Some? && !(Current().value.kind == Scale && Get(answers, Current().value.key) != "") ==>
                currentAnswer == Get(answers, Current().value.key) &&
                scaleValue == old(scaleValue) && scaleExplanation == old(scaleExplanation)
    {
      var q := Current();
      if q.Some? {
        var existing := Get(answers, q.value.key);
        if q.value.kind == Scale && existing != "" {
          var parsed := ParseScale(existing);
          scaleValue := parsed.0;
          scaleExplanation := parsed.1;
        } else {
          currentAnswer := existing;
        }
      }
    }

    /** The text Next saves: the serialised scale answer, or the text box. */
    function AnswerToSave(q: Question): string
      reads this
    {
      if q.kind == Scale then Serialise(scaleValue, scaleExplanation) else currentAnswer
    }

    /** `handleNext`: nothing without a question; otherwise the answer is dispatched under the
        question's key and the page moves on. */
    method HandleNext() returns (dispatched: Option<Action>, target: Option<Route>)
      ensures Current().None? ==> dispatched.None? && target.None?
      ensures Current().Some? ==>
        dispatched == Some(UpdateQuestionAnswer(Current().value.key, AnswerToSave(Current().value))) &&
        target == Some(NextTarget(number.value))
    {
      var q := Current();
      if q.None? {
        return None, None;
      }
      dispatched := Some(UpdateQuestionAnswer(q.value.key, AnswerToSave(q.value)));
      target := Some(NextTarget(number.value));
    }

    /** `handlePrevious`. */
    method HandlePrevious() returns (target: Option<Route>)
      ensures number.Some? ==> target == PreviousTarget(number.value)
      ensures number.None? ==> target.None?
    {
      if number.Some? && number.value > 1 {
        target := Some(QuestionRoute(number.value - 1));
      } else {
        target := None;
      }
    }

    /** `isAnswered`: the scale question needs an explanation, the others a non-blank text. */
    predicate IsAnswered()
      reads this
    {
      if Current().Some? && Current().value.kind == Scale then Trim(scaleExplanation) != []
      else Trim(currentAnswer) != []
    }
  }

  /** An answer counts exactly when the text it is judged on has a character that is not
      white space. */
  lemma AnsweredIffNotBlank(page: QuestionPage)
    ensures var judged := if page.Current().Some? && page.Current().value.kind == Scale
                          then page.scaleExplanation else page.currentAnswer;
      page.IsAnswered() <==> exists i :: 0 <= i < |judged| && !IsSpace(judged[i])
  {
    TrimEmptyIffBlank(page.scaleExplanation);
    TrimEmptyIffBlank(page.currentAnswer);
  }

  /** Saving a scale answer from 1 to 10 and reloading the page restores it, when the
      explanation has no " - " in it. */
  lemma SaveThenReload(state: AppState, value: int, explanation: string)
    requires 1 <= value <= 10 && !Contains(explanation, " - ")
    ensures var saved := Reduce(state, UpdateQuestionAnswer(PhysicalWork, Serialise(value, explanation)));
      Get(saved.questionAnswers, PhysicalWork) != "" &&
      ParseScale(Get(saved.questionAnswers, PhysicalWork)) == (value, explanation)
  {
    ScaleRoundTrip(value, explanation);
  }
}
