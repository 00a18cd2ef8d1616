/** The demo layer: the six-segment sample transcript, the four scripted questions with
    their canned answers, and the controller that drives the scripted demo and records
    learning progress. */
module DemoData {
  import opened Text
  import opened Seqs
  import opened Types
  import opened Assistant

  // ---------------------------------------------------------------- sample profile

  const SampleResumeSkills: seq<string> := ["JavaScript", "React", "Node.js", "Python", "Data Analysis",
                                           "Project Management", "Communication", "Problem Solving"]

  /** The five questionnaire fields of the sample profile. */
  const SampleAnswers: QuestionAnswers :=
    QuestionAnswers("Career change for better opportunities", "love", "comfortable", "enjoy", "full-time")

  // ---------------------------------------------------------------- sample transcript

  function Seg(start: nat, text: string, keywords: seq<string>, topics: seq<string>): TranscriptSegment
  {
    TranscriptSegment(start, start + 20, text, keywords, topics)
  }

  const Text75: string := "Safety is paramount when working with electrical circuits. Always wear safety glasses, use insulated tools, and ensure the circuit is de-energized before making any connections. Keep a first aid kit nearby and never work alone on high-voltage systems."
  const Text125: string := "Ohm's law is the foundation of circuit analysis. It states that voltage equals current times resistance, or V = I \U{00D7} R. This fundamental relationship helps us understand how electricity flows through components and how to calculate values in our circuits."
  const Text225: string := "In parallel circuits, voltage remains constant across all branches, but current divides. To calculate the total current, we add the individual branch currents. The voltage across each parallel branch equals the source voltage."
  const Text320: string := "When analyzing parallel circuits, remember that each path provides an independent route for current flow. The total resistance is always less than the smallest individual resistor. Use the reciprocal formula: 1/Rt = 1/R1 + 1/R2 + 1/R3."
  const Text390: string := "Practical application of Ohm's law: If you have a 12-volt battery and a 4-ohm resistor, the current flowing through the circuit will be 3 amperes. This calculation is essential for component selection and circuit design."
  const Text525: string := "Advanced Ohm's law applications include power calculations. Power equals voltage times current (P = V \U{00D7} I), or voltage squared divided by resistance (P = V\U{00B2}/R). Understanding power is crucial for component ratings and heat dissipation."

  const DemoSegments: seq<TranscriptSegment> := [
    Seg(75, Text75,
        ["safety", "glasses", "insulated", "tools", "de-energized", "first-aid"],
        ["safety", "precautions", "equipment"]),
    Seg(125, Text125,
        ["ohm", "law", "voltage", "current", "resistance", "calculate"],
        ["theory", "calculations", "fundamentals"]),
    Seg(225, Text225,
        ["parallel", "voltage", "constant", "current", "divides", "branches"],
        ["circuit-types", "calculations", "parallel"]),
    Seg(320, Text320,
        ["parallel", "resistance", "reciprocal", "formula", "current", "path"],
        ["calculations", "resistance", "parallel"]),
    Seg(390, Text390,
        ["practical", "ohm", "12-volt", "battery", "4-ohm", "resistor", "3-amperes"],
        ["practical", "calculations", "examples"]),
    Seg(525, Text525,
        ["power", "calculations", "voltage", "current", "resistance", "heat", "dissipation"],
        ["advanced", "power", "calculations"])
  ]

  const DemoTranscript: VideoTranscript := VideoTranscript(DemoSegments, 600, "Circuit Design Fundamentals")

  /** Every segment ends after it starts and within the ten-minute video, and start times
      strictly increase. */
  lemma DemoTranscriptWellFormed()
    ensures |DemoTranscript.segments| == 6
    ensures forall i :: 0 <= i < 6 ==>
      DemoTranscript.segments[i].startTime < DemoTranscript.segments[i].endTime <= DemoTranscript.duration
    ensures forall i, j :: 0 <= i < j < 6 ==> DemoTranscript.segments[i].startTime < DemoTranscript.segments[j].startTime
  {
    var starts := [75, 125, 225, 320, 390, 525];
    assert forall i :: 0 <= i < 6 ==> DemoSegments[i].startTime == starts[i] && DemoSegments[i].endTime == starts[i] + 20;
  }

  // ---------------------------------------------------------------- scripted questions

  datatype DemoQuestion = DemoQuestion(question: string, expectedResponse: VideoResponse)

  const BreakerQuestion: string := "When the breaker is turned on, which wire does it feed first?"
  const ParallelQuestion: string := "How do I calculate voltage in a parallel circuit?"
  const SafetyEquipmentQuestion: string := "What safety equipment do I need?"
  const OhmQuestion: string := "Can you explain Ohm's law?"

  const BreakerMessage: string := "Great question about breaker wiring! When a breaker is turned on, it feeds the hot (live) wire first. This is a fundamental concept in electrical safety and circuit operation.\n\nJumping to 1:12 where this is demonstrated exactly!"
  const ParallelMessage: string := "I found relevant information about your question:\n\n\U{2022} [3:45] In parallel circuits, voltage remains constant across all branches, but current divides. To calculate...\n\U{2022} [5:20] When analyzing parallel circuits, remember that each path provides an independent route for current...\n\nI recommend starting at 3:45 for the most comprehensive explanation."
  const SafetyMessage: string := "I found relevant information about your question:\n\n\U{2022} [1:15] Safety is paramount when working with electrical circuits. Always wear safety glasses, use insulated...\n\nJumping to 1:15 where this topic is covered in detail."
  const OhmMessage: string := "I found relevant information about your question:\n\n\U{2022} [2:05] Ohm's law is the foundation of circuit analysis. It states that voltage equals current times...\n\U{2022} [6:30] Practical application of Ohm's law: If you have a 12-volt battery and a 4-ohm resistor...\n\U{2022} [8:45] Advanced Ohm's law applications include power calculations. Power equals voltage times current...\n\nI recommend starting at 2:05 for the most comprehensive explanation."

  const BreakerDescription: string := "Breaker operation and wire feed sequence - shows exactly which wire gets power first"
  const Description225: string := "In parallel circuits, voltage remains constant across all branches, but current divides. To calculate..."
  const Description320: string := "When analyzing parallel circuits, remember that each path provides an independent route for current..."
  const Description75: string := "Safety is paramount when working with electrical circuits. Always wear safety glasses, use insulated..."
  const Description125: string := "Ohm's law is the foundation of circuit analysis. It states that voltage equals current times..."
  const Description390: string := "Practical application of Ohm's law: If you have a 12-volt battery and a 4-ohm resistor..."
  const Description525: string := "Advanced Ohm's law applications include power calculations. Power equals voltage times current..."

  const BreakerResponse: VideoResponse := VideoResponse(BreakerMessage,
    [RankedTimestamp(72, 98, BreakerDescription, "Safety and circuit fundamentals")],
    ["What happens if the breaker trips?", "How do you safely reset a breaker?"],
    true, 0.95)

  const ParallelResponse: VideoResponse := VideoResponse(ParallelMessage,
    [RankedTimestamp(225, 95, Description225, "Circuit design fundamentals"),
     RankedTimestamp(320, 85, Description320, "Circuit design fundamentals")],
    ["What tools are essential for circuit design?", "How do I calculate power consumption?"],
    true, 0.9)

  const SafetyResponse: VideoResponse := VideoResponse(SafetyMessage,
    [RankedTimestamp(75, 98, Description75, "Safety and precautions")],
    ["What are the most common circuit design mistakes?", "What voltage levels require special precautions?"],
    true, 0.95)

  const OhmResponse: VideoResponse := VideoResponse(OhmMessage,
    [RankedTimestamp(125, 95, Description125, "Theoretical concepts"),
     RankedTimestamp(390, 85, Description390, "Hands-on demonstration"),
     RankedTimestamp(525, 80, Description525, "Mathematical calculations")],
    ["How do I calculate power consumption?", "What's the best way to measure circuit values?"],
    true, 0.92)

  const DemoQuestions: seq<DemoQuestion> := [
    DemoQuestion(BreakerQuestion, BreakerResponse),
    DemoQuestion(ParallelQuestion, ParallelResponse),
    DemoQuestion(SafetyEquipmentQuestion, SafetyResponse),
    DemoQuestion(OhmQuestion, OhmResponse)
  ]

  /** `demoQuestions.find(...)`: the first scripted question equal to `question` after
      lowercasing both. */
  function FindDemoQuestion(qs: seq<DemoQuestion>, question: string): (r: Option<DemoQuestion>)
    ensures r.None? <==> forall i :: 0 <= i < |qs| ==> LowerStr(qs[i].question) != LowerStr(question)
    ensures r.Some? ==> exists i :: (0 <= i < |qs| && qs[i] == r.value &&
      LowerStr(qs[i].question) == LowerStr(question) &&
      forall j :: 0 <= j < i ==> LowerStr(qs[j].question) != LowerStr(question))
  {
    if qs == [] then None
    else if LowerStr(qs[0].question) == LowerStr(question) then Some(qs[0])
    else
      var r := FindDemoQuestion(qs[1..], question);
      assert forall i :: 1 <= i < |qs| ==> qs[i] == qs[1..][i - 1];
      if r.Some? then
        var i :| (0 <= i < |qs[1..]| && qs[1..][i] == r.value &&
          LowerStr(qs[1..][i].question) == LowerStr(question) &&
          forall j :: 0 <= j < i ==> LowerStr(qs[1..][j].question) != LowerStr(question));
        assert qs[i + 1] == r.value;
        r
      else r
  }

  /** `processQuestion` as a function: the canned answer of a scripted question, otherwise
      the assistant's answer with nothing watched. */
  function DemoAnswer(question: string, keep: seq<bool>): VideoResponse
    requires |keep| == 3
  {
    match FindDemoQuestion(DemoQuestions, question)
    case Some(d) => d.expectedResponse
    case None => Respond(DemoTranscript, question, [], keep)
  }

  /** The lowercased scripted questions are pairwise different (they differ in length). */
  lemma DemoQuestionsDistinct()
    ensures forall i, j :: 0 <= i < j < |DemoQuestions| ==>
      LowerStr(DemoQuestions[i].question) != LowerStr(DemoQuestions[j].question)
  {
    var lens := [61, 49, 32, 26];
    assert forall i :: 0 <= i < 4 ==> |DemoQuestions[i].question| == lens[i];
  }

  /** Asking a scripted question in any letter case gives exactly its canned answer; any
      other question is answered by the assistant. */
  lemma DemoAnswerCases(question: string, keep: seq<bool>)
    requires |keep| == 3
    ensures forall i :: 0 <= i < |DemoQuestions| && LowerStr(DemoQuestions[i].question) == LowerStr(question) ==>
      DemoAnswer(question, keep) == DemoQuestions[i].expectedResponse
    ensures (forall i :: 0 <= i < |DemoQuestions| ==> LowerStr(DemoQuestions[i].question) != LowerStr(question)) ==>
      DemoAnswer(question, keep) == Respond(DemoTranscript, question, [], keep)
  {
    DemoQuestionsDistinct();
  }

  /** The breaker question jumps to 1:12 with autoplay. */
  lemma BreakerAnswer(keep: seq<bool>)
    requires |keep| == 3
    ensures Map(DemoAnswer(BreakerQuestion, keep).timestamps, (t: RankedTimestamp) => t.timestamp) == [72]
    ensures DemoAnswer(BreakerQuestion, keep).shouldAutoPlay
  {
    DemoAnswerCases(BreakerQuestion, keep);
  }

  // ---------------------------------------------------------------- controller

  /** A snapshot of the controller's state, as `getDemoState` hands it out. */
  datatype DemoState = DemoState(
    currentQuestionIndex: nat,
    isAutoDemo: bool,
    typingSpeed: nat,
    pauseBetweenQuestions: nat,
    completedSkills: seq<string>,
    currentLearningSkill: Option<string>,
    learningProgress: map<string, int>)

  const InitialDemoState: DemoState := DemoState(0, false, 50, 3000, [], None, map[])

  /** What one scripted turn shows: the typed question, the answer text and, when the
      answer has any, the timestamps handed to the player. */
  datatype DemoTurn = DemoTurn(question: string, message: string, timestamps: seq<nat>)

  const RecommendedSkills: seq<string> :=
    ["Circuit Design", "Wiring Installation", "Electrical Safety", "Motor Control Systems", "PLC Programming"]

  /** The state after `completeSkill(skill)`. */
  function CompletedSkill(s: DemoState, skill: string): (t: DemoState)
    ensures skill in t.completedSkills && t.currentLearningSkill == None
    ensures skill in s.completedSkills ==> t == s.(currentLearningSkill := None)
    ensures skill !in s.completedSkills ==>
      t.completedSkills == s.completedSkills + [skill] && skill in t.learningProgress &&
      t.learningProgress[skill] == 100 &&
      (forall k :: k != skill ==> (k in t.learningProgress <==> k in s.learningProgress))
    ensures t.currentQuestionIndex == s.currentQuestionIndex && t.isAutoDemo == s.isAutoDemo
    ensures t.typingSpeed == s.typingSpeed && t.pauseBetweenQuestions == s.pauseBetweenQuestions
  {
    if skill in s.completedSkills then s.(currentLearningSkill := None)
    else s.(completedSkills := s.completedSkills + [skill],
            learningProgress := s.learningProgress[skill := 100],
            currentLearningSkill := None)
  }

  /** The state after `startLearning(skill)`: `!learningProgress[skill]` holds for a missing
      entry and for 0, and only then is the entry (re)set to 0. */
  function StartedLearning(s: DemoState, skill: string): (t: DemoState)
    ensures t.currentLearningSkill == Some(skill) && skill in t.learningProgress
    ensures skill in s.learningProgress && s.learningProgress[skill] != 0 ==>
      t.learningProgress == s.learningProgress
    ensures !(skill in s.learningProgress && s.learningProgress[skill] != 0) ==> t.learningProgress[skill] == 0
    ensures t.completedSkills == s.completedSkills && t.currentQuestionIndex == s.currentQuestionIndex
    ensures t.isAutoDemo == s.isAutoDemo
  {
    s.(currentLearningSkill := Some(skill),
       learningProgress := if skill in s.learningProgress && s.learningProgress[skill] != 0
                           then s.learningProgress else s.learningProgress[skill := 0])
  }

  class DemoController {
    const videoAssistant: VideoAssistant
    var currentQuestionIndex: nat
    var isAutoDemo: bool
    var typingSpeed: nat
    var pauseBetweenQuestions: nat
    var completedSkills: seq<string>
    var currentLearningSkill: Option<string>
    var learningProgress: map<string, int>

    /** The state as a value. */
    function State(): DemoState
      reads this
    {
      DemoState(currentQuestionIndex, isAutoDemo, typingSpeed, pauseBetweenQuestions,
                completedSkills, currentLearningSkill, learningProgress)
    }

    /** The assistant answers from the sample transcript, the scripted run never points
        past the last question, completed skills are never listed twice, and each of them
        has a progress entry. */
    predicate Valid()
      reads this
    {
      videoAssistant.transcript == DemoTranscript &&
      currentQuestionIndex <= |DemoQuestions| &&
      Distinct(completedSkills) &&
      forall i :: 0 <= i < |completedSkills| ==> completedSkills[i] in learningProgress
    }

    constructor()
      ensures Valid()
      ensures State() == InitialDemoState
      ensures videoAssistant.transcript == DemoTranscript && fresh(videoAssistant)
    {
      videoAssistant := new VideoAssistant(DemoTranscript);
      currentQuestionIndex := 0;
      isAutoDemo := false;
      typingSpeed := 50;
      pauseBetweenQuestions := 3000;
      completedSkills := [];
      currentLearningSkill := None;
      learningProgress := map[];
    }

    /** `startAutoDemo`: switches the run on from the first question and asks it, which
        returns the first turn and points the run at the second question. */
    method StartAutoDemo(keep: seq<bool>) returns (turn: Option<DemoTurn>)
      requires |keep| == 3
      requires Valid()
      modifies this, videoAssistant
      ensures Valid()
      ensures var q := DemoQuestions[0].question;
        var a := DemoAnswer(q, keep);
        turn == Some(DemoTurn(q, a.message, Map(a.timestamps, (t: RankedTimestamp) => t.timestamp))) &&
        State() == old(State()).(currentQuestionIndex := 1, isAutoDemo := true)
    {
      isAutoDemo := true;
      currentQuestionIndex := 0;
      turn := RunNextDemoQuestion(keep);
    }

    /** `stopAutoDemo`. */
    method StopAutoDemo()
      requires Valid()
      modifies this
      ensures Valid()
      ensures State() == old(State()).(isAutoDemo := false)
    {
      isAutoDemo := false;
    }

    /** `resetDemo`: back to the initial state, from any state. */
    method ResetDemo()
      requires Valid()
      modifies this
      ensures Valid()
      ensures State() == InitialDemoState
    {
      currentQuestionIndex := 0;
      isAutoDemo := false;
      typingSpeed := 50;
      pauseBetweenQuestions := 3000;
      completedSkills := [];
      currentLearningSkill := None;
      learningProgress := map[];
    }

    /** `completeSkill`: a skill is recorded (with progress 100) only the first time; the
        current skill is cleared either way. */
    method CompleteSkill(skillName: string)
      requires Valid()
      modifies this
      ensures Valid()
      ensures State() == CompletedSkill(old(State()), skillName)
    {
      if skillName !in completedSkills {
        completedSkills := completedSkills + [skillName];
        learningProgress := learningProgress[skillName := 100];
      }
      currentLearningSkill := None;
    }

    /** `startLearning`: the skill becomes current; a missing or zero progress entry is set
        to 0 and a non-zero one is kept. */
    method StartLearning(skillName: string)
      requires Valid()
      modifies this
      ensures Valid()
      ensures State() == StartedLearning(old(State()), skillName)
    {
      currentLearningSkill := Some(skillName);
      if !(skillName in learningProgress && learningProgress[skillName] != 0) {
        learningProgress := learningProgress[skillName := 0];
      }
    }

    /** `updateProgress`: only that skill's progress entry changes. */
    method UpdateProgress(skillName: string, progress: int)
      requires Valid()
      modifies this
      ensures Valid()
      ensures State() == old(State()).(learningProgress := old(learningProgress)[skillName := progress])
    {
      learningProgress := learningProgress[skillName := progress];
    }

    /** `getDemoState`: a copy of the state. */
    method GetDemoState() returns (s: DemoState)
      ensures s == State()
    {
      s := DemoState(currentQuestionIndex, isAutoDemo, typingSpeed, pauseBetweenQuestions,
                     completedSkills, currentLearningSkill, learningProgress);
    }

    /** `processQuestion`: a canned answer for a scripted question, otherwise the
        assistant's, which also resets its watched list. */
    method ProcessQuestion(question: string, keep: seq<bool>) returns (r: VideoResponse)
      requires |keep| == 3
      requires Valid()
      modifies videoAssistant
      ensures r == DemoAnswer(question, keep)
      ensures videoAssistant.watchedSegments ==
        if FindDemoQuestion(DemoQuestions, question).Some? then old(videoAssistant.watchedSegments) else []
    {
      var found := FindDemoQuestion(DemoQuestions, question);
      if found.Some? {
        return found.value.expectedResponse;
      }
      r := videoAssistant.ProcessUserQuestion(question, [], keep);
    }

    /** One round of `runNextDemoQuestion`: with the run off or every question asked it
        switches the run off and does nothing else; otherwise it asks the current question,
        shows the answer and moves to the next question. */
    method RunNextDemoQuestion(keep: seq<bool>) returns (turn: Option<DemoTurn>)
      requires |keep| == 3
      requires Valid()
      modifies this, videoAssistant
      ensures Valid()
      ensures old(!isAutoDemo || currentQuestionIndex >= |DemoQuestions|) ==>
        turn == None && State() == old(State()).(isAutoDemo := false)
      ensures old(isAutoDemo && currentQuestionIndex < |DemoQuestions|) ==>
        var q := DemoQuestions[old(currentQuestionIndex)].question;
        var a := DemoAnswer(q, keep);
        turn == Some(DemoTurn(q, a.message, Map(a.timestamps, (t: RankedTimestamp) => t.timestamp))) &&
        State() == old(State()).(currentQuestionIndex := old(currentQuestionIndex) + 1)
    {
      if !isAutoDemo || currentQuestionIndex >= |DemoQuestions| {
        isAutoDemo := false;
        return None;
      }
      var question := DemoQuestions[currentQuestionIndex].question;
      var response := ProcessQuestion(question, keep);
      turn := Some(DemoTurn(question, response.message, Map(response.timestamps, (t: RankedTimestamp) => t.timestamp)));
      currentQuestionIndex := currentQuestionIndex + 1;
    }
  }
}
