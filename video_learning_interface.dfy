/** The video learning panel: the canned answers and timestamp suggestions for a question,
    the chat it keeps beside the video, and the jumps to a suggested time. */
module VideoLearning {
  import opened Text
  import opened TimeFormat

  // ---------------------------------------------------------------- the rule table

  /** The rules the panel tries in order; `NoRule` is the fallback. */
  datatype Rule = BreakerWireFeed | ParallelVoltage | SafetyEquipment | OhmLaw | CircuitRule | ResistorRule | NoRule

  /** `input` mentions `word`, ignoring case. */
  predicate Mentions(input: string, word: string)
  {
    Contains(LowerStr(input), word)
  }

  /** The first rule whose words all occur in the question. */
  function MatchedRule(input: string): Rule
  {
    if Mentions(input, "breaker") && Mentions(input, "wire") && Mentions(input, "feed") then BreakerWireFeed
    else if Mentions(input, "parallel") && Mentions(input, "voltage") then ParallelVoltage
    else if Mentions(input, "safety") && Mentions(input, "equipment") then SafetyEquipment
    else if Mentions(input, "ohm") && Mentions(input, "law") then OhmLaw
    else if Mentions(input, "circuit") then CircuitRule
    else if Mentions(input, "resistor") then ResistorRule
    else NoRule
  }

  /** The times, in seconds, each rule suggests. */
  function RuleTimestamps(rule: Rule): seq<nat>
  {
    match rule
    case BreakerWireFeed => [72]
    case ParallelVoltage => [225, 320]
    case SafetyEquipment => [75]
    case OhmLaw => [125, 390, 525]
    case CircuitRule => [45, 120, 180]
    case ResistorRule => [95, 240]
    case NoRule => []
  }

  // Each answer is written as its first word and the rest, which keeps the first word easy
  // to compare.
  const BreakerAnswer: string := "Great" + " question about breaker wiring! When a breaker is turned on, it feeds the hot (live) wire first. This is a fundamental concept in electrical safety and circuit operation. Jump to 1:12 to see the exact demonstration of how breakers control power flow."
  const ParallelAnswer: string := "Excellent" + " question about parallel circuits! In parallel circuits, voltage remains constant across all branches, but current divides. Check out the timestamps to see practical examples and calculations."
  const SafetyAnswer: string := "Safety" + " first! Essential equipment includes safety glasses, insulated tools, and proper grounding. The video covers all the critical safety measures you need to know."
  const OhmAnswer: string := "Ohm's" + " law is fundamental to understanding circuits! V = I × R explains the relationship between voltage, current, and resistance. I've found multiple sections that explain this with practical examples."
  const CircuitAnswer: string := "Great" + " question about circuits! In the video, you can see how basic circuits work. The fundamental principle is that electricity flows in a closed loop. Check out the timestamps I've provided to see specific examples of circuit components and their functions."
  const ResistorAnswer: string := "Resistors" + " are crucial components that limit current flow in circuits. They're color-coded to indicate their resistance value. The video shows several examples of how resistors are used in practical circuits."

  /** The answer for an unrecognised question, naming the skill in lower case. */
  function FallbackAnswer(skillName: string): string
  {
    "That's an interesting question about " + LowerStr(skillName)
    + ". The video covers this topic in detail. Let me know if you need clarification on any specific part!"
  }

  /** The answer each rule gives. */
  function RuleAnswer(rule: Rule, skillName: string): string
  {
    match rule
    case BreakerWireFeed => BreakerAnswer
    case ParallelVoltage => ParallelAnswer
    case SafetyEquipment => SafetyAnswer
    case OhmLaw => OhmAnswer
    case CircuitRule => CircuitAnswer
    case ResistorRule => ResistorAnswer
    case NoRule => FallbackAnswer(skillName)
  }

  // ---------------------------------------------------------------- the two lookups

  /** `extractTimestamps`. */
  function ExtractTimestamps(input: string): seq<nat>
  {
    var lower := LowerStr(input);
    if Contains(lower, "breaker") && Contains(lower, "wire") && Contains(lower, "feed") then [72]
    else if Contains(lower, "parallel") && Contains(lower, "voltage") then [225, 320]
    else if Contains(lower, "safety") && Contains(lower, "equipment") then [75]
    else if Contains(lower, "ohm") && Contains(lower, "law") then [125, 390, 525]
    else if Contains(lower, "circuit") then [45, 120, 180]
    else if Contains(lower, "resistor") then [95, 240]
    else []
  }

  /** `generateAIResponse`. */
  function GenerateAIResponse(input: string, skillName: string): string
  {
    var lower := LowerStr(input);
    if Contains(lower, "breaker") && Contains(lower, "wire") && Contains(lower, "feed") then BreakerAnswer
    else if Contains(lower, "parallel") && Contains(lower, "voltage") then ParallelAnswer
    else if Contains(lower, "safety") && Contains(lower, "equipment") then SafetyAnswer
    else if Contains(lower, "ohm") && Contains(lower, "law") then OhmAnswer
    else if Contains(lower, "circuit") then CircuitAnswer
    else if Contains(lower, "resistor") then ResistorAnswer
    else FallbackAnswer(skillName)
  }

  /** Both lookups follow the one rule table: they pick the same rule for every question. */
  lemma LookupsFollowRules(input: string, skillName: string)
    ensures ExtractTimestamps(input) == RuleTimestamps(MatchedRule(input))
    ensures GenerateAIResponse(input, skillName) == RuleAnswer(MatchedRule(input), skillName)
  {
  }

  /** Only the fallback rule suggests no time, and no canned answer looks like the
      fallback. */
  lemma RuleTableShape(rule: Rule, skillName: string)
    ensures RuleTimestamps(rule) == [] <==> rule == NoRule
    ensures RuleAnswer(rule, skillName) == FallbackAnswer(skillName) <==> rule == NoRule
  {
    var fallback := FallbackAnswer(skillName);
    assert fallback[0] == 'T';
    match rule
    case BreakerWireFeed => assert BreakerAnswer[0] == 'G';
    case ParallelVoltage => assert ParallelAnswer[0] == 'E';
    case SafetyEquipment => assert SafetyAnswer[0] == 'S';
    case OhmLaw => assert OhmAnswer[0] == 'O';
    case CircuitRule => assert CircuitAnswer[0] == 'G';
    case ResistorRule => assert ResistorAnswer[0] == 'R';
    case NoRule =>
  }

  /** The answer is the fallback exactly when no time is suggested. */
  lemma FallbackIffNoTimestamps(input: string, skillName: string)
    ensures GenerateAIResponse(input, skillName) == FallbackAnswer(skillName) <==> ExtractTimestamps(input) == []
  {
    LookupsFollowRules(input, skillName);
    RuleTableShape(MatchedRule(input), skillName);
  }

  /** Both lookups ignore case: a question and its lower-case form get the same times and
      the same answer. */
  lemma LookupsIgnoreCase(input: string, skillName: string)
    ensures ExtractTimestamps(LowerStr(input)) == ExtractTimestamps(input)
    ensures GenerateAIResponse(LowerStr(input), skillName) == GenerateAIResponse(input, skillName)
  {
    LowerStrIdempotent(input);
  }

  /** A question naming breaker, wire and feed is the first rule, whatever else it says. */
  lemma BreakerRuleWins(input: string)
    requires Mentions(input, "breaker") && Mentions(input, "wire") && Mentions(input, "feed")
    ensures ExtractTimestamps(input) == [72]
  {
  }

  // ---------------------------------------------------------------- the chat panel

  /** A chat message; `timestamps` is present on answers only. */
  datatype Message = Message(content: string, isUser: bool, timestamps: Option<seq<nat>>, isSystem: bool)

  /** Nothing but white space: the strings whose `trim()` is empty (`TrimEmptyIffBlank`). */
  predicate Blank(s: string)
  {
    forall i :: 0 <= i < |s| ==> IsSpace(s[i])
  }

  /** The answer message to a question. */
  function AnswerMessage(question: string, skillName: string): Message
  {
    Message(GenerateAIResponse(question, skillName), false, Some(ExtractTimestamps(question)), false)
  }

  /** The message announcing a jump. */
  function JumpMessage(seconds: nat): Message
  {
    Message("\U{1F3AF} Jumped to " + FormatTime(seconds) + " - Now playing the relevant section!", false, None, true)
  }

  /** The panel's chat and player state. `hasPlayer` says whether the player object exists
      and can seek. */
  class ChatPanel {
    const skillName: string
    var messages: seq<Message>
    var inputMessage: string
    var isLoading: bool
    var hasInteracted: bool
    var currentTime: nat
    var isPlayerReady: bool
    var hasPlayer: bool
    var playerPosition: nat
    var playing: bool

    constructor(skill: string)
      ensures skillName == skill && messages == [] && inputMessage == "" && !isLoading && !hasInteracted
      ensures currentTime == 0 && !isPlayerReady && !hasPlayer && playerPosition == 0 && !playing
    {
      skillName := skill;
      messages := [];
      inputMessage := "";
      isLoading := false;
      hasInteracted := false;
      currentTime := 0;
      isPlayerReady := false;
      hasPlayer := false;
      playerPosition := 0;
      playing := false;
    }

    /** Typing into the input box. */
    method SetInput(text: string)
      modifies this
      ensures inputMessage == text
      ensures messages == old(messages) && isLoading == old(isLoading) && hasInteracted == old(hasInteracted)
      ensures currentTime == old(currentTime) && isPlayerReady == old(isPlayerReady) && hasPlayer == old(hasPlayer)
      ensures playerPosition == old(playerPosition) && playing == old(playing)
    {
      inputMessage := text;
    }

    /** `handleSendMessage`: a blank input is ignored; otherwise the question and then the
        answer with its suggested times are appended, the input is cleared, and the panel
        counts as used. */
    method HandleSendMessage()
      modifies this
      ensures Blank(old(inputMessage)) ==>
        messages == old(messages) && inputMessage == old(inputMessage) && isLoading == old(isLoading) &&
        hasInteracted == old(hasInteracted)
      ensures !Blank(old(inputMessage)) ==>
        messages == old(messages) + [Message(old(inputMessage), true, None, false),
                                     AnswerMessage(old(inputMessage), skillName)] &&
        inputMessage == "" && !isLoading && hasInteracted
      ensures currentTime == old(currentTime) && isPlayerReady == old(isPlayerReady) && hasPlayer == old(hasPlayer)
      ensures playerPosition == old(playerPosition) && playing == old(playing)
    {
      if Blank(inputMessage) {
        return;
      }
      var question := inputMessage;
      messages := messages + [Message(question, true, None, false)];
      inputMessage := "";
      isLoading := true;
      hasInteracted := true;
      messages := messages + [AnswerMessage(question, skillName)];
      isLoading := false;
    }

    /** `seekToTimestamp`: with a player, it moves to `seconds`, plays, and adds one system
        message naming the time; without one nothing happens. */
    method SeekToTimestamp(seconds: nat)
      modifies this
      ensures hasPlayer ==> playerPosition == seconds && playing && hasInteracted &&
                            messages == old(messages) + [JumpMessage(seconds)]
      ensures !hasPlayer ==> playerPosition == old(playerPosition) && playing == old(playing) &&
                             hasInteracted == old(hasInteracted) && messages == old(messages)
      ensures hasPlayer == old(hasPlayer) && inputMessage == old(inputMessage) && isLoading == old(isLoading)
      ensures currentTime == old(currentTime) && isPlayerReady == old(isPlayerReady)
    {
      if hasPlayer {
        playerPosition := seconds;
        playing := true;
        hasInteracted := true;
        messages := messages + [JumpMessage(seconds)];
      }
    }

    /** The player has loaded: it exists and reports itself ready. */
    method OnPlayerReady()
      modifies this
      ensures hasPlayer && isPlayerReady
      ensures messages == old(messages) && inputMessage == old(inputMessage) && isLoading == old(isLoading)
      ensures hasInteracted == old(hasInteracted) && currentTime == old(currentTime)
      ensures playerPosition == old(playerPosition) && playing == old(playing)
    {
      hasPlayer := true;
      isPlayerReady := true;
    }

    /** One tick of the time display: the player's time, rounded down to whole seconds. */
    method OnTimeUpdate(playerTime: real)
      requires playerTime >= 0.0
      modifies this
      ensures currentTime == playerTime.Floor
      ensures currentTime as real <= playerTime < currentTime as real + 1.0
      ensures messages == old(messages) && inputMessage == old(inputMessage) && isLoading == old(isLoading)
      ensures hasInteracted == old(hasInteracted) && isPlayerReady == old(isPlayerReady) && hasPlayer == old(hasPlayer)
      ensures playerPosition == old(playerPosition) && playing == old(playing)
    {
      currentTime := playerTime.Floor;
    }

    /** The player started playing. */
    method OnPlaying()
      modifies this
      ensures hasInteracted && playing
      ensures messages == old(messages) && inputMessage == old(inputMessage) && isLoading == old(isLoading)
      ensures currentTime == old(currentTime) && isPlayerReady == old(isPlayerReady) && hasPlayer == old(hasPlayer)
      ensures playerPosition == old(playerPosition)
    {
      hasInteracted := true;
      playing := true;
    }

    /** The complete button shows once the learner has used the panel. */
    predicate CanComplete()
      reads this
    {
      hasInteracted
    }
  }

  /** The answer a send appends carries the times of the question's rule, and its text is the
      fallback exactly when it carries no time. */
  lemma SentAnswerTimes(question: string, skillName: string)
    ensures var answer := AnswerMessage(question, skillName);
      answer.timestamps == Some(RuleTimestamps(MatchedRule(question))) &&
      (answer.content == FallbackAnswer(skillName) <==> answer.timestamps == Some([]))
  {
    LookupsFollowRules(question, skillName);
    FallbackIffNoTimestamps(question, skillName);
  }
}
