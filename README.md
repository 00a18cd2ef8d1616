# TradeUP in Dafny

TradeUP is a browser application for career guidance in the skilled trades. A user picks a
trade (electrician or plumber), uploads a resume, answers a five-question questionnaire, and is
shown a compatibility score, a list of skill gaps and a prioritised learning journey. The user can
then study each skill with a training video and a chat assistant that answers questions with
clickable video timestamps.

This project models the decision logic of that application and proves properties of the model.
It has one Dafny module per source file:

| module | source file | what it holds |
|---|---|---|
| `Types` | `src/types/index.ts` | the shared records: skills, gaps, journey nodes, answers, application state |
| `SkillsData` | `src/utils/skillsData.ts` | the electrician, plumber and transferable skill catalogues |
| `AiProcessor` | `src/utils/aiProcessor.ts` | compatibility score, skill gaps, learning journey, prerequisites |
| `AppContext` | `src/context/AppContext.tsx` | the application reducer and its initial state |
| `QuestionFlow` | `src/pages/QuestionFlow.tsx` | the questionnaire page and its answer serialisation |
| `ResumeUpload` | `src/pages/ResumeUpload.tsx` | the file-type check and the upload status |
| `Results` | `src/pages/Results.tsx` | the results page: analysis, badges, learning and completion state |
| `JourneyMap` | `src/components/SkillJourneyMap.tsx` | node status, the three columns and completion percentage |
| `VideoLearning` | `src/components/VideoLearningInterface.tsx` | the chat panel and its rule-based answers |
| `Player` | `src/components/YouTubePlayer.tsx` | the player controls, time formatting, errors and chapters |
| `Assistant` | `src/utils/VideoAssistant.ts` | the relevance ranker and response composer over a transcript |
| `CircuitTranscript` | `src/utils/circuitDesignTranscript.ts` | the 53-segment circuit design transcript and its keyword search |
| `DemoData` | `src/utils/demoData.ts` | the sample transcript, the scripted demo questions and the demo controller |

Three helper modules hold what the JavaScript runtime provides: `Text` (lowercasing, `includes`,
`split`/`join`, `trim`, `parseInt`, decimal printing), `Seqs` (filter, stable sort, prefix and
first-occurrence de-duplication) and `TimeFormat` (the `M:SS` clock used by the assistant and
the chat panel).

Modelling choices:

- Strings are sequences of characters, and only ASCII letters are lowercased.
- The compatibility bonuses, the skill match and the assistant's confidence are exact real
  numbers. The assistant's relevance scores are integer tenths, and so is the circuit ranker's
  score. A ranked entry's relevance is kept in hundredths.
- `Math.random` becomes an input. Gap levels take a sequence of rolls (`rolls`, each 0..3 for
  the levels 3..6). The follow-up filter takes a keep/drop mask (`keep`).
- Timers become explicit steps. A timeout is a method that runs when the callback would fire,
  for example the end of the resume analysis or the next question of the auto demo.
- React components that hold state become classes. Their `useState` variables are fields and
  their handlers are methods.

Some properties proved here describe what the code does where that may not be what was meant:

- A basic catalogue skill (required level 6) shows the "Intermediate" badge
  (`Results.BadgeOfCatalogueLevels`).
- The demo gap "Circuit Design" misses the case-sensitive prerequisite key "Circuit design"
  (`Results.DemoGapsHaveNoPrerequisites`).
- A physical-comfort rating of -12 or below makes the compatibility score negative
  (`AiProcessor.CompatibilityCanBeNegative`).
- The completion percentage is 100 only when every node is complete, but only below 200 nodes.
  At 200 or more nodes, rounding can also give 100 (`JourneyMap.CompletionInRange`).
- The player's time-update interval never moves the shown time. The player's event handlers
  come from `initializePlayer`, memoised at src/components/YouTubePlayer.tsx:175 without
  `isReady` among its dependencies. The handlers therefore keep the `isReady` of the mount,
  which is false, and the interval's guard at line 182 reads that value. So the progress bar
  and the time display move only when `seekTo` sets the time, and `onTimeUpdate` is never
  called (`Player.TicksWithUnreadyHandlers`, `Player.PlayingAfterMountShowsNoTicks`). This
  follows from the source as written; nothing was executed.

## Model

| member | source | states |
|---|---|---|
| AiProcessor.EmptyEntryMatchesAll | src/utils/aiProcessor.ts:61-64 | an empty resume entry matches every required skill, because every string contains "" |
| AiProcessor.CalculateSkillMatch | src/utils/aiProcessor.ts:56-73 | the accumulating loop returns the matched share of the total importance (`SkillMatch`), 0 when the total is 0 |
| AiProcessor.MatchedWeightBounds | src/utils/aiProcessor.ts:60-70 | with non-negative importances the matched weight lies between 0 and the total weight |
| AiProcessor.NoUserSkillsNoWeight | src/utils/aiProcessor.ts:61-68 | with no resume skills nothing is matched |
| AiProcessor.AllMatchedFullWeight | src/utils/aiProcessor.ts:60-70 | when every required skill is matched, the matched weight is the total weight |
| AiProcessor.SkillMatchBounds | src/utils/aiProcessor.ts:56-73 | the skill match lies in [0, 1] and is 0 for an empty required list or an empty resume list |
| AiProcessor.EmptyEntryFullMatch | src/utils/aiProcessor.ts:61-72 | a resume list holding "" scores a full match of 1 against any list of positive total importance |
| AiProcessor.RequiredLevel | src/utils/aiProcessor.ts:83-84 | the required level is 6, 8 or 10 |
| AiProcessor.GapFor | src/utils/aiProcessor.ts:76-90 | the gap names the required skill, takes the level of its category, and has current level 3..6 when the skill is matched and 0 otherwise |
| AiProcessor.AllGaps | src/utils/aiProcessor.ts:76-90 | one gap per required skill, in order, each as `GapFor` with that skill's roll |
| AiProcessor.CalculateSkillGaps | src/utils/aiProcessor.ts:75-92 | no more gaps than required skills |
| AiProcessor.GapsSelection | src/utils/aiProcessor.ts:75-92 | the gaps are an order-preserving subsequence of the per-skill gaps, and a skill's gap is kept iff its current level is below its required level |
| AiProcessor.GapLevels | src/utils/aiProcessor.ts:82-91 | every kept gap has required level 6, 8 or 10, current level 0 or 3..6, and current below required |
| AiProcessor.GapsByCase | src/utils/aiProcessor.ts:77-91 | an unmatched skill always appears with level 0; a matched non-basic skill always appears with its rolled level; a matched basic skill appears iff its level is not 6 |
| AiProcessor.Prerequisites | src/utils/aiProcessor.ts:163-174 | the lookup is non-empty exactly for the six keys (exact, case-sensitive) and then has two entries |
| AiProcessor.PrerequisitesInCatalogue | src/utils/aiProcessor.ts:164-171 | every prerequisite named is a skill of the electrician or plumber catalogue |
| AiProcessor.PriorityOf | src/utils/aiProcessor.ts:99-100 | high iff the required level is at least 9, medium iff 7 or 8, low otherwise |
| AiProcessor.PriorityRank | src/utils/aiProcessor.ts:115 | the rank lies in 1..3 |
| AiProcessor.ToNode | src/utils/aiProcessor.ts:95-112 | a node keeps the gap's skill and levels, needs 20 hours per missing level, and takes the priority and prerequisites of its gap |
| AiProcessor.GenerateSkillJourney | src/utils/aiProcessor.ts:94-122 | one node per gap |
| AiProcessor.JourneyOrder | src/utils/aiProcessor.ts:94-122 | the journey is a permutation of the gaps' nodes, sorted by priority rank non-increasing then prerequisite count non-decreasing, with equal keys in input order |
| AiProcessor.JourneySorted | src/utils/aiProcessor.ts:113-121 | every earlier journey node has a higher priority, or the same priority and no more prerequisites, than every later one |
| AiProcessor.JourneyStable | src/utils/aiProcessor.ts:113-121 | nodes with the same priority and prerequisite count keep the order of their gaps |
| AiProcessor.AtLeastIsJourneyBefore | src/utils/aiProcessor.ts:115-120 | a node whose sort key is at least another's comes before it under the comparator: higher priority first, then fewer prerequisites |
| AiProcessor.JourneyNodesFromGaps | src/utils/aiProcessor.ts:95-112 | every journey node is the node of some input gap |
| AiProcessor.Hits | src/utils/aiProcessor.ts:133-148 | the hits are exactly the keywords contained in the lowercased answer |
| AiProcessor.MotivationScore | src/utils/aiProcessor.ts:124-129 | 0.8 iff some motivation keyword occurs case-insensitively, else 0.4 |
| AiProcessor.HandsOnScore | src/utils/aiProcessor.ts:131-137 | min(0.2 × hits, 1): in [0, 1], 0 iff no hit, 1 iff at least 5 hits |
| AiProcessor.ProblemSolvingScore | src/utils/aiProcessor.ts:144-150 | min(0.15 × hits, 1): in [0, 1], 0 iff no hit, 1 iff all 7 keywords hit |
| AiProcessor.AvailabilityScore | src/utils/aiProcessor.ts:152-161 | 1 iff "full-time" or "flexible" occurs, else 0.7 iff "part-time" occurs, else 0.5 |
| AiProcessor.PhysicalRating | src/utils/aiProcessor.ts:140 | the parsed first space-separated token when it parses to a non-zero integer, else 5 |
| AiProcessor.PhysicalWorkScore | src/utils/aiProcessor.ts:139-142 | a first token that does not parse, or parses to 0, scores 0.5; a rating v of 1 to 10 scores v/10, which lies in [0.1, 1] |
| AiProcessor.IntToStringHasNoSpace | src/utils/aiProcessor.ts:140 | a rendered integer holds no space, so it is a whole first token |
| AiProcessor.PhysicalOfSerialised | src/utils/aiProcessor.ts:139-142 | a serialised answer "v - explanation" with v non-zero scores v/10 |
| AiProcessor.Round | src/utils/aiProcessor.ts:46 | `Math.round`: the nearest integer, halves rounded up |
| AiProcessor.AnalyzeCompatibility | src/utils/aiProcessor.ts:30-54 | the score never exceeds 100, and the gaps are `calculateSkillGaps` of the same inputs |
| AiProcessor.TradeSkillMatchNonNegative | src/utils/aiProcessor.ts:35-36 | the skill match against any trade's catalogue is non-negative |
| AiProcessor.BonusFloor | src/utils/aiProcessor.ts:39-45 | with a non-negative physical rating the questionnaire bonus is at least 0.11 |
| AiProcessor.CompatibilityFloor | src/utils/aiProcessor.ts:30-54 | with a non-negative physical rating the score is at least 11, so never negative |
| AiProcessor.PhysicalRatingOfMinus12 | src/utils/aiProcessor.ts:140 | the answer "-12" parses to the rating -12 |
| AiProcessor.BlankHasNoKeyword | src/utils/aiProcessor.ts:126-128 | an empty answer contains no keyword |
| AiProcessor.BlankMotivation | src/utils/aiProcessor.ts:124-129 | an empty motivation answer scores 0.4 |
| AiProcessor.BlankHandsOn | src/utils/aiProcessor.ts:131-137 | an empty hands-on answer scores 0 |
| AiProcessor.BlankProblemSolving | src/utils/aiProcessor.ts:144-150 | an empty problem-solving answer scores 0 |
| AiProcessor.BlankAvailability | src/utils/aiProcessor.ts:152-161 | an empty availability answer scores 0.5 |
| AiProcessor.CompatibilityCanBeNegative | src/utils/aiProcessor.ts:39-46 | with no resume skills, empty answers and physical answer "-12" the electrician score is -1: the score is capped only above |
| Types.TradeName | src/types/index.ts:1 | a trade is named "plumber" or "electrician" |
| Types.With | src/context/AppContext.tsx:41-44 | writing one answer key sets that key and leaves every other key as it was |
| AppContext.Reduce | src/context/AppContext.tsx:30-57 | a SET_* or UPDATE action holds its payload in the part it writes and leaves every other part unchanged; RESET_APP yields the initial state; any other action returns the state unchanged |
| AppContext.InitialStateIsEmpty | src/context/AppContext.tsx:4-18 | the initial state has no trade, no file, no skills, all answers empty, score 0, no gaps, and is not analysing |
| AppContext.SameEverywhere | src/types/index.ts:38-46 | two states that agree on every part are equal, so the parts cover the whole state |
| AppContext.LastSetWins | src/context/AppContext.tsx:32-51 | two sets of the same part equal the last set alone |
| AppContext.HoldsDecides | src/context/AppContext.tsx:32-51 | two states that hold the same setter's payload agree on the part it writes |
| AppContext.ResetIdempotent | src/context/AppContext.tsx:52-53 | resetting twice is resetting once |
| AppContext.ReplayEndingInReset | src/context/AppContext.tsx:52-53 | any sequence of actions that ends in RESET_APP leaves the initial state |
| AppContext.ReplayKeepsUntouched | src/context/AppContext.tsx:30-57 | a sequence of actions with no reset and no setter of part f leaves f unchanged |
| AppContext.SameAtTrans | src/context/AppContext.tsx:30-57 | agreement on one part is transitive |
| SkillsData.GetSkillsByTrade | src/utils/skillsData.ts:54-63 | non-empty exactly for "plumber" and "electrician", and then 27 skills ending in the 12 transferable skills |
| SkillsData.Names | src/utils/skillsData.ts:3-52 | the names of a skill list, one per skill in order |
| SkillsData.TotalImportanceAtLeastLength | src/types/index.ts:20 | with every importance in 1..10 the total importance is at least the number of skills |
| SkillsData.CatalogueImportances | src/utils/skillsData.ts:4-51 | every importance in the three tables lies in 1..10 |
| SkillsData.DistinctConcat | src/utils/skillsData.ts:57-59 | concatenating two name-distinct lists with no common name gives a name-distinct list |
| SkillsData.PlumberDistinct | src/utils/skillsData.ts:4-20 | the plumber skill names are pairwise distinct |
| SkillsData.ElectricianDistinct | src/utils/skillsData.ts:21-37 | the electrician skill names are pairwise distinct |
| SkillsData.TransferableDistinct | src/utils/skillsData.ts:38-51 | the transferable skill names are pairwise distinct |
| SkillsData.PlumberTransferableDisjoint | src/utils/skillsData.ts:4-51 | no plumber skill shares a name with a transferable skill |
| SkillsData.ElectricianTransferableDisjoint | src/utils/skillsData.ts:21-51 | no electrician skill shares a name with a transferable skill |
| SkillsData.KnownTradeSkills | src/utils/skillsData.ts:54-60 | each known trade yields 27 skills with distinct names, importances in 1..10 and a positive total importance, so the skill-match denominator is not 0 |
| QuestionFlow.QuestionsTable | src/pages/QuestionFlow.tsx:15-51 | five questions with ids 1..5 in order, only id 3 of scale type, and pairwise-distinct answer keys |
| QuestionFlow.FindQuestion | src/pages/QuestionFlow.tsx:58-125 | a question is found iff the number is 1..5, and it is the question with that id; any other number finds none ("Question not found") |
| QuestionFlow.NoParameterIsFirstQuestion | src/pages/QuestionFlow.tsx:58 | without a route parameter the page shows question 1 |
| QuestionFlow.ParseScale | src/pages/QuestionFlow.tsx:70-72 | the reloaded scale value is never 0 (0 and unparsable become 5) |
| QuestionFlow.ParseSerialised | src/pages/QuestionFlow.tsx:70-84 | reloading a serialised "v - e" with v non-zero gives v back and only the part of e before its first " - " |
| QuestionFlow.ScaleRoundTrip | src/pages/QuestionFlow.tsx:70-84 | for v in 1..10 and e without " - ", reloading the serialised answer gives back (v, e) |
| QuestionFlow.UnreadableValueIsFive | src/pages/QuestionFlow.tsx:71 | a first part that does not parse, or parses to 0, reloads as 5 |
| QuestionFlow.SavedScaleScore | src/pages/QuestionFlow.tsx:84 | the physical-work score of a serialised scale answer with v in 1..10 is v/10, within [0.1, 1] |
| QuestionFlow.NextTarget | src/pages/QuestionFlow.tsx:91-95 | Next goes to question n+1 below 5 and to the results page from 5 on |
| QuestionFlow.PreviousTarget | src/pages/QuestionFlow.tsx:100-107 | Previous acts iff n > 1, and then goes to question n-1 |
| QuestionFlow.NextThenPrevious | src/pages/QuestionFlow.tsx:91-107 | from questions 1..4, Next then Previous comes back |
| QuestionFlow.QuestionPage.constructor | src/pages/QuestionFlow.tsx:58-63 | the page starts on the parsed question number with an empty answer, scale 5 and no explanation |
| QuestionFlow.QuestionPage.Load | src/pages/QuestionFlow.tsx:66-77 | a stored scale answer is parsed into value and explanation; any other question copies its stored answer; without a question nothing changes |
| QuestionFlow.QuestionPage.HandleNext | src/pages/QuestionFlow.tsx:79-98 | with a question, it dispatches the answer to save (the serialised scale for the scale question) and targets the next route; without one it does nothing |
| QuestionFlow.QuestionPage.HandlePrevious | src/pages/QuestionFlow.tsx:100-108 | the target is the previous route of the current number |
| QuestionFlow.AnsweredIffNotBlank | src/pages/QuestionFlow.tsx:116-121 | a question counts as answered iff its text, the explanation for the scale question, has a non-whitespace character |
| QuestionFlow.SaveThenReload | src/pages/QuestionFlow.tsx:66-87 | saving a scale answer through the reducer and reloading it gives back the value and the explanation |
| DemoData.DemoTranscriptWellFormed | src/utils/demoData.ts:33-80 | the sample transcript has 6 segments, each starting before it ends and ending by 600 s, with strictly increasing start times |
| DemoData.FindDemoQuestion | src/utils/demoData.ts:302-304 | `find` with case-insensitive equality: none iff no question matches, otherwise the first one that does |
| DemoData.DemoQuestionsDistinct | src/utils/demoData.ts:83-182 | no two scripted questions are equal case-insensitively |
| DemoData.DemoAnswerCases | src/utils/demoData.ts:300-312 | a scripted question gets its canned response; any other question gets the assistant's answer from the sample transcript |
| DemoData.BreakerAnswer | src/utils/demoData.ts:84-103 | the breaker question answers with the single timestamp 72 and autoplay on |
| DemoData.DemoController.constructor | src/utils/demoData.ts:202-213 | index 0, auto off, typing speed 50, pause 3000, no completed skills, no current skill, no progress, and an assistant over the sample transcript |
| DemoData.DemoController.StartAutoDemo | src/utils/demoData.ts:215-219 | the run starts from the first question and asks it at once: the turn is the first scripted question with its answer and timestamps, and the run then points at the second question |
| DemoData.DemoController.StopAutoDemo | src/utils/demoData.ts:221-227 | auto off; nothing else changes |
| DemoData.DemoController.ResetDemo | src/utils/demoData.ts:229-243 | from any state, the initial demo state |
| DemoData.CompletedSkill | src/utils/demoData.ts:255-265 | completing makes the skill listed and clears the current skill; an already listed skill changes nothing else; a new one is appended with progress 100 and no other progress key appears; the script's position and settings stay |
| DemoData.StartedLearning | src/utils/demoData.ts:267-276 | the skill becomes current and has a progress entry; a non-zero entry is kept, a missing or zero one becomes 0; completions and the script's position stay |
| DemoData.DemoController.CompleteSkill | src/utils/demoData.ts:255-265 | the whole new state is `CompletedSkill` of the old one, and the controller stays valid: no skill is listed twice |
| DemoData.DemoController.StartLearning | src/utils/demoData.ts:267-276 | the whole new state is `StartedLearning` of the old one |
| DemoData.DemoController.UpdateProgress | src/utils/demoData.ts:278-284 | only that skill's progress entry changes |
| DemoData.DemoController.GetDemoState | src/utils/demoData.ts:296-298 | a copy of the current state |
| DemoData.DemoController.ProcessQuestion | src/utils/demoData.ts:300-312 | the canned response for a scripted question, else the assistant's answer; the assistant's watched list is kept for a scripted question and reset to [] (the default argument) otherwise |
| DemoData.DemoController.RunNextDemoQuestion | src/utils/demoData.ts:314-341 | with the run off or all 4 questions asked it switches the run off and does nothing else; otherwise it asks the current question, reports the answer and its timestamps, and moves the index on by one |
| ResumeUpload.AcceptedTypes | src/pages/ResumeUpload.tsx:48-53 | exactly the PDF, DOC and DOCX MIME types are accepted |
| ResumeUpload.UploadPage.constructor | src/pages/ResumeUpload.tsx:8-9 | the page starts idle with no extracted skills |
| ResumeUpload.UploadPage.BeginUpload | src/pages/ResumeUpload.tsx:48-57 | a refused file changes nothing; an accepted one is stored, and the page is analysing with `isAnalyzing` true |
| ResumeUpload.UploadPage.FinishExtraction | src/pages/ResumeUpload.tsx:58-70 | the extracted skills are stored and counted, the status is complete and `isAnalyzing` is false |
| ResumeUpload.UploadPage.FailExtraction | src/pages/ResumeUpload.tsx:64-70 | the status returns to idle and `isAnalyzing` is false |
| ResumeUpload.UploadPage.HandleFileUpload | src/pages/ResumeUpload.tsx:47-71 | a refused file changes nothing; an accepted one ends stored and not analysing, with the skills and count on success and the idle status on failure, and no other part of the state changes |
| Results.MotivationalMessage | src/pages/Results.tsx:148-153 | the excellent message iff the score is at least 80, the great one iff 60..79, the good one iff 40..59, and the beginner one below 40 |
| Results.MessageBandMonotone | src/pages/Results.tsx:148-153 | a higher score never gets a lower band |
| Results.GetNextSteps | src/pages/Results.tsx:155-181 | 1 to 3 steps ending with the community step; the safety step appears iff some gap name contains "safety" case-insensitively, and then first; the tool step appears iff some gap name contains "tool", and then just before the community step |
| Results.NextRecommendedSkill | src/pages/Results.tsx:235-238 | none iff every gap skill is completed; otherwise the first gap skill not completed |
| Results.MatchedSkillsSublist | src/pages/Results.tsx:73-79 | the matched skills are an order-preserving sublist of the resume skills, each matching some trade skill by two-way case-insensitive containment, and no matching resume skill is left out |
| Results.AnalysisInputs | src/pages/Results.tsx:40-55 | with a trade and resume skills the analysis uses the application's own data; otherwise it uses 'electrician' with the sample profile |
| Results.InputsAreKnownTrade | src/pages/Results.tsx:40-50 | with the sample profile, the analysed trade is always a known one with 27 catalogue skills, and the analysed skill list is never empty |
| Results.Badge | src/pages/Results.tsx:457-458 | Advanced iff the required level is at least 8, Intermediate iff 6 or 7, Basic below 6 |
| Results.BadgeOfCatalogueLevels | src/pages/Results.tsx:457-458 | a basic catalogue gap (level 6) shows the Intermediate badge; intermediate and advanced gaps show Advanced |
| Results.DemoGapBadges | src/pages/Results.tsx:59-65 | the five demo gaps show Advanced, Advanced, Intermediate, Intermediate, Basic |
| Results.DemoGapsHaveNoPrerequisites | src/pages/Results.tsx:59-69 | "Circuit Design" and every other demo gap name miss the case-sensitive prerequisite keys, so the demo journey lists no prerequisites |
| Results.AnalysisScore | src/pages/Results.tsx:55-56 | the analysed score never exceeds 100 |
| Results.ScoreOverwritten | src/pages/Results.tsx:52-56 | the demo score 65 set before the analysis score is overwritten by it |
| Results.DemoJourneyMonths | src/pages/Results.tsx:59-65 | the demo gaps need 480 hours in total, shown as 3-6 months |
| Results.ResultsPage.constructor | src/pages/Results.tsx:24-31 | the page starts loading, with no journey, matches, completions, current skill, progress, video or toast |
| Results.ResultsPage.AnalyzeResults | src/pages/Results.tsx:37-87 | the score is the analysed score (after the demo fallback), the gaps and the journey are the demo gaps', the matches are the filter's, loading ends, and nothing else changes |
| Results.ResultsPage.ShowAnalysis | src/pages/Results.tsx:56-85 | stores the score and the gaps, the journey of the gaps and the matches, and ends loading; nothing else changes |
| Results.ResultsPage.HandleStartLearning | src/pages/Results.tsx:183-187 | the page's only changes are the current skill and the open video; the controller's whole new state is `StartedLearning` of its old one |
| Results.ResultsPage.HandleCompleteSkill | src/pages/Results.tsx:189-201 | without a current skill neither the page nor the controller changes; otherwise the page's only changes are the skill appended to completed, its progress 100, the toast naming it, and the current skill and video cleared, and the controller's whole new state is `CompletedSkill` of its old one |
| JourneyMap.FindGap | src/components/SkillJourneyMap.tsx:51 | `find` by exact, case-sensitive name: none iff no gap has the name, else the index of the first that does |
| JourneyMap.NodeStatus | src/components/SkillJourneyMap.tsx:46-58 | partial iff owned with a gap; complete iff owned without one; focus iff not owned with a gap among the first 3; todo iff not owned and no gap among the first 3 |
| JourneyMap.EstimatedHours | src/components/SkillJourneyMap.tsx:51-67 | 0 without a gap of that name, else 20 × (required − current) of the first such gap |
| JourneyMap.NodeIdInjective | src/components/SkillJourneyMap.tsx:61 | ids "<category>-<index>" of different category or index differ |
| JourneyMap.RowWithinColumn | src/components/SkillJourneyMap.tsx:66 | every row of a column sits between y = 80 and y = 420 |
| JourneyMap.CategoryNodes | src/components/SkillJourneyMap.tsx:44-70 | one node per skill of the column, the i-th built from the i-th skill at index i |
| JourneyMap.CreateNodesForCategory | src/components/SkillJourneyMap.tsx:44-70 | the loop appends exactly the column's nodes, in order, to the nodes built so far |
| JourneyMap.BuildNodes | src/components/SkillJourneyMap.tsx:32-76 | the three calls build the basic, intermediate and advanced columns of at most 5 skills each at x = 150, 400, 650 |
| JourneyMap.ColumnShape | src/components/SkillJourneyMap.tsx:39-74 | a column has at most 5 nodes, drawn in order from the target skills of its category, each with that category, the id "<category>-<index>", the column's x, its skill's name and a y within 80..420 |
| JourneyMap.ColumnsInOrder | src/components/SkillJourneyMap.tsx:61-74 | basic, then intermediate, then advanced nodes come in category order with pairwise-distinct ids |
| JourneyMap.MapNodesShape | src/components/SkillJourneyMap.tsx:72-74 | at most 15 nodes, in basic, intermediate, advanced order, with pairwise-distinct ids |
| JourneyMap.RoundFractionNearest | src/components/SkillJourneyMap.tsx:270 | the rounded percentage is the integer nearest to num/den, halves up |
| JourneyMap.Completion | src/components/SkillJourneyMap.tsx:270 | no percentage iff there are no nodes (the source shows NaN) |
| JourneyMap.CompleteCountBound | src/components/SkillJourneyMap.tsx:270 | the complete count is at most the node count, equal to it iff all nodes are complete, and 0 iff none is |
| JourneyMap.CompletionInRange | src/components/SkillJourneyMap.tsx:270 | with nodes the percentage lies in 0..100, is 100 when all are complete and 0 when none is; below 200 nodes these are both iffs |
| JourneyMap.TotalHoursNonNegative | src/components/SkillJourneyMap.tsx:335-337 | when no gap's current level exceeds its required level, the total hours are non-negative |
| JourneyMap.CeilDiv | src/components/SkillJourneyMap.tsx:335-338 | `Math.ceil(t/d)`: the least integer r with t ≤ d·r |
| JourneyMap.MonthRangeOrdered | src/components/SkillJourneyMap.tsx:335-338 | for total hours T ≥ 0, ceil(T/160) ≤ ceil(T/80) ≤ 2·ceil(T/160) |
| CircuitTranscript.TimestampsFollowStart | src/utils/circuitDesignTranscript.ts:29-348 | segment i starts at 0 for i = 0 and at 30·i − 5 after that |
| CircuitTranscript.ClockRows0To9 | src/utils/circuitDesignTranscript.ts:30-83 | rows 0..8 display their start time as M:SS |
| CircuitTranscript.ClockRows9To18 | src/utils/circuitDesignTranscript.ts:84-137 | rows 9..17 display their start time as M:SS |
| CircuitTranscript.ClockRows18To27 | src/utils/circuitDesignTranscript.ts:138-191 | rows 18..26 display their start time as M:SS |
| CircuitTranscript.ClockRows27To36 | src/utils/circuitDesignTranscript.ts:192-245 | rows 27..35 display their start time as M:SS |
| CircuitTranscript.ClockRows36To45 | src/utils/circuitDesignTranscript.ts:246-299 | rows 36..44 display their start time as M:SS |
| CircuitTranscript.ClockRows45To53 | src/utils/circuitDesignTranscript.ts:300-347 | rows 45..52 display their start time as M:SS |
| CircuitTranscript.DisplaysFollowStart | src/utils/circuitDesignTranscript.ts:6 | every row's display is its start time formatted as minutes and two-digit seconds |
| CircuitTranscript.CircuitParts | src/utils/circuitDesignTranscript.ts:29-348 | the transcript has 53 segments, segment i starting at 30·i − 5 (0 for the first) |
| CircuitTranscript.CircuitDisplays | src/utils/circuitDesignTranscript.ts:6 | each `timeDisplay` is its segment's timestamp rendered as M:SS |
| CircuitTranscript.CircuitTimestampsIncrease | src/utils/circuitDesignTranscript.ts:28-348 | timestamps start at 0, strictly increase, and stay below the duration 1800 |
| CircuitTranscript.QueryKeywords | src/utils/circuitDesignTranscript.ts:353-354 | every keyword is longer than 2 characters and holds no space |
| CircuitTranscript.CountOccurrences | src/utils/circuitDesignTranscript.ts:387 | the count of non-overlapping literal occurrences is at most the text length |
| CircuitTranscript.CountOccurrencesPositive | src/utils/circuitDesignTranscript.ts:387-388 | a keyword occurs at least once iff the text contains it |
| CircuitTranscript.LowerTopics | src/utils/circuitDesignTranscript.ts:383 | each topic lowercased, in order |
| CircuitTranscript.ScoreDirectHits | src/utils/circuitDesignTranscript.ts:386-389 | the loop adds 3 tenths per occurrence of each keyword in the text |
| CircuitTranscript.ScoreTopics | src/utils/circuitDesignTranscript.ts:392-398 | the nested loops add 5 tenths per (topic, keyword) pair with the keyword in the topic |
| CircuitTranscript.ScoreConcepts | src/utils/circuitDesignTranscript.ts:357-415 | the loop adds 8 tenths per triggered concept found in the topics and 4 per one found in the text |
| CircuitTranscript.ScoreSegment | src/utils/circuitDesignTranscript.ts:380-435 | the accumulated score is the sum of the direct, topic, concept and query-pattern bonuses (`SegmentScore`) |
| CircuitTranscript.ScoreAll | src/utils/circuitDesignTranscript.ts:380-439 | each segment paired with its score, in transcript order |
| CircuitTranscript.Relevance | src/utils/circuitDesignTranscript.ts:448 | min(score/3, 1): in [0, 1], positive for a positive score |
| CircuitTranscript.RelevanceMonotone | src/utils/circuitDesignTranscript.ts:448 | a higher score never has a lower relevance |
| CircuitTranscript.Preview | src/utils/circuitDesignTranscript.ts:449-451 | the text itself up to 100 characters, otherwise its first 97 characters and "...", exactly 100 |
| CircuitTranscript.FindRelevantTimestamps | src/utils/circuitDesignTranscript.ts:352-453 | the scoring loop, sort, top-8 cut and mapping give `RelevantTimestamps` |
| CircuitTranscript.SearchTranscript | src/utils/circuitDesignTranscript.ts:456-471 | exactly `findRelevantTimestamps` of the question on the transcript |
| CircuitTranscript.RankedSegmentsAreTheScoringOnes | src/utils/circuitDesignTranscript.ts:436-443 | the ranked list is sorted by score non-increasing and holds exactly the segments with a positive score |
| CircuitTranscript.RankedAreScoring | src/utils/circuitDesignTranscript.ts:432-441 | every ranked entry is a transcript segment together with its own positive score |
| CircuitTranscript.ScoringAreRanked | src/utils/circuitDesignTranscript.ts:432-441 | every segment with a positive score appears in the ranking with that score |
| CircuitTranscript.RelevantShape | src/utils/circuitDesignTranscript.ts:442-452 | at most 8 results, each of relevance in (0, 1], in non-increasing relevance, each built from one positive-scoring segment's timestamp, display, relevance and preview |
| CircuitTranscript.OnlyTheBestEight | src/utils/circuitDesignTranscript.ts:442-444 | a positive-scoring segment is left out only when 8 results score at least as high |
| CircuitTranscript.RelevantDistinctTimestamps | src/utils/circuitDesignTranscript.ts:380-447 | with distinct segment timestamps, no timestamp appears twice in the results |
| CircuitTranscript.SearchResultsDistinct | src/utils/circuitDesignTranscript.ts:456-471 | no result of a search of the transcript repeats a timestamp |
| CircuitTranscript.NoLongWordIn | src/utils/circuitDesignTranscript.ts:354-434 | a query whose space-separated words all have at most 2 characters contains no longer word without spaces |
| CircuitTranscript.NoEarlierConcepts | src/utils/circuitDesignTranscript.ts:401-415 | with no keyword no concept is triggered |
| CircuitTranscript.NoTopicMentions | src/utils/circuitDesignTranscript.ts:392-398 | with no keyword no topic scores |
| CircuitTranscript.ShortWordsFindNothing | src/utils/circuitDesignTranscript.ts:352-453 | a query whose words all have at most 2 characters yields no results |
| Assistant.Blank | src/utils/VideoAssistant.ts:238 | `replace(/[^\w\s]/g, ' ')` on one character: word and space characters stay, anything else becomes a space |
| Assistant.BlankStr | src/utils/VideoAssistant.ts:238 | the replacement applied to every character, keeping the length |
| Assistant.SplitWhite | src/utils/VideoAssistant.ts:239 | `split(/\s+/)`: at least one piece, and no piece holds whitespace |
| Assistant.ExtractKeywordsShape | src/utils/VideoAssistant.ts:233-242 | every keyword is longer than 2 characters, not a stop word, and made of lowercase word characters; keywords are duplicate-free and in first-occurrence order |
| Assistant.KeywordChars | src/utils/VideoAssistant.ts:233-242 | every keyword is longer than 2 characters, not a stop word, and made of lowercase letters, digits and underscores only |
| Assistant.FindRelevantSegments | src/utils/VideoAssistant.ts:188-200 | no more segments than the transcript has |
| Assistant.FindRelevantSegmentsSpec | src/utils/VideoAssistant.ts:188-200 | the relevant segments are, in transcript order, exactly those whose lowercased text or some lowercased segment keyword contains a question keyword |
| Assistant.CountMentions | src/utils/VideoAssistant.ts:207-210 | at most one text hit per keyword |
| Assistant.CountListMentions | src/utils/VideoAssistant.ts:211-213 | at most one segment-keyword hit per keyword |
| Assistant.TopicMentions | src/utils/VideoAssistant.ts:217-223 | at most one hit per (topic, keyword) pair |
| Assistant.RelevanceScore | src/utils/VideoAssistant.ts:202-231 | the score in tenths lies in 0..10 and is the raw sum capped at 10 |
| Assistant.NoveltyBonus | src/utils/VideoAssistant.ts:225-230 | an unwatched segment scores exactly one tenth more (up to the cap) than the same segment watched |
| Assistant.CountMentionsNone | src/utils/VideoAssistant.ts:207-210 | without a keyword in the text there is no text hit |
| Assistant.CountListMentionsNone | src/utils/VideoAssistant.ts:211-213 | without a keyword in the segment keywords there is no keyword hit |
| Assistant.NoTopicMentions | src/utils/VideoAssistant.ts:217-223 | without a keyword in a topic there is no topic hit |
| Assistant.UnmentionedScoresAtMostOne | src/utils/VideoAssistant.ts:202-231 | a segment no keyword mentions scores at most the novelty bonus |
| Assistant.Window | src/utils/VideoAssistant.ts:252-254 | the text from 50 before to 50 after the hit is at most 100 characters |
| Assistant.DescribeFrom | src/utils/VideoAssistant.ts:244-259 | the window around the first keyword found in the lowercased text, plus "..."; without any, the first 100 characters plus "..." |
| Assistant.ContextFrom | src/utils/VideoAssistant.ts:261-278 | the description of the first context key some lowercased topic contains, else 'Circuit design fundamentals' |
| Assistant.RankOne | src/utils/VideoAssistant.ts:91-99 | an entry carries its segment's start time and the relevance score of the question's keywords |
| Assistant.Scored | src/utils/VideoAssistant.ts:90-99 | one entry per segment, in order |
| Assistant.RankTimestamps | src/utils/VideoAssistant.ts:87-102 | no more entries than segments |
| Assistant.RankedScores | src/utils/VideoAssistant.ts:87-102 | every ranked score lies between 40 and 100 hundredths, and none exceeds the first entry's |
| Assistant.RankedEntriesFromSegments | src/utils/VideoAssistant.ts:87-102 | every ranked entry scores above 0.3 (so in 0.4..1) and is the entry of an input segment |
| Assistant.RankedComplete | src/utils/VideoAssistant.ts:100 | every segment whose entry passes the 0.3 threshold is ranked |
| Assistant.RankedOrder | src/utils/VideoAssistant.ts:100-101 | the ranking is sorted non-increasing by score, and entries of equal score keep their input order |
| Assistant.AnyInThree | src/utils/VideoAssistant.ts:283-292 | a three-word test holds iff one of the three words occurs |
| Assistant.CategorizeQuestion | src/utils/VideoAssistant.ts:280-297 | safety, then components, then calculations, then circuit basics, else general, each iff its words occur and no earlier group's do |
| Assistant.FollowUpPool | src/utils/VideoAssistant.ts:108-147 | every category has a pool of 3 questions |
| Assistant.KeepWhere | src/utils/VideoAssistant.ts:150 | the kept items are no more than the items |
| Assistant.KeepWhereSubseq | src/utils/VideoAssistant.ts:150 | the kept items are an order-preserving subsequence |
| Assistant.SuggestFollowUpQuestions | src/utils/VideoAssistant.ts:104-151 | at most 2 suggestions |
| Assistant.FollowUpsFromPool | src/utils/VideoAssistant.ts:104-151 | the suggestions are an order-preserving subsequence of the question category's pool |
| Assistant.VaguePhraseTestRedundant | src/utils/VideoAssistant.ts:153-160 | a question is too vague iff it has fewer than 3 space-separated words or its trimmed length is under 10; the vague-phrase test never decides |
| Assistant.HandleVagueQuestion | src/utils/VideoAssistant.ts:162-174 | no timestamps, no autoplay, confidence 0.2 and exactly 3 suggestions |
| Assistant.AllTopics | src/utils/VideoAssistant.ts:299-303 | every topic of every segment is collected |
| Assistant.FindRelatedTopics | src/utils/VideoAssistant.ts:299-306 | at most 5 topics |
| Assistant.HandleNoRelevantContent | src/utils/VideoAssistant.ts:176-186 | no timestamps, no autoplay, confidence 0.1 and at most 3 suggestions |
| Assistant.NoContentSuggestions | src/utils/VideoAssistant.ts:176-186 | the related topics are the first distinct topics in transcript order, and the suggestions are "Tell me about <lowercased topic>" for the first 3 of them |
| Assistant.CalculateConfidence | src/utils/VideoAssistant.ts:308-315 | the confidence never exceeds 1 |
| Assistant.SumScoresBounds | src/utils/VideoAssistant.ts:311 | the sum of scores lies between n·lo and n·hi |
| Assistant.ConfidenceBounds | src/utils/VideoAssistant.ts:308-315 | when every ranked score lies in 0.4..1, the confidence lies in [0.4, 1] |
| Assistant.ResponseTextShape | src/utils/VideoAssistant.ts:64-85 | only the first 3 segments are listed; one segment gets the "Jumping to" closing, two or more the "I recommend starting at" closing |
| Assistant.RespondAnswered | src/utils/VideoAssistant.ts:45-62 | the normal branch returns 1 to 3 entries that are a prefix of the ranking, starting with its first entry, and autoplays iff that entry scores above 0.7 |
| Assistant.RespondAnsweredMessage | src/utils/VideoAssistant.ts:52-61 | the normal branch's confidence lies in [0.4, 1], it offers at most 2 follow-up questions, and its message is built from the relevant segments |
| Assistant.RespondFallbacks | src/utils/VideoAssistant.ts:41-50 | a vague question gets the vague answer; otherwise an empty ranking gets the no-content answer with no timestamps, no autoplay and confidence 0.1 |
| Assistant.VideoAssistant.constructor | src/utils/VideoAssistant.ts:30-36 | the assistant holds the transcript and an empty watched list |
| Assistant.VideoAssistant.ProcessUserQuestion | src/utils/VideoAssistant.ts:38-62 | stores the watched list and returns `Respond` of the question |
| Assistant.VideoAssistant.GenerateResponse | src/utils/VideoAssistant.ts:64-85 | the loop building the message by `+=` gives `ResponseText` |
| Assistant.VideoAssistant.CalculateRelevanceScore | src/utils/VideoAssistant.ts:202-231 | the nested loops accumulate `RelevanceScore` against the stored watched list |
| Assistant.VideoAssistant.UpdateWatchedSegments | src/utils/VideoAssistant.ts:323-325 | replaces the watched list |
| VideoLearning.LookupsFollowRules | src/components/VideoLearningInterface.tsx:216-268 | both lookups pick the first matching rule of one shared table, in the same order |
| VideoLearning.RuleTableShape | src/components/VideoLearningInterface.tsx:220-267 | only the no-rule case has no timestamps, and only it answers with the skill-name fallback |
| VideoLearning.FallbackIffNoTimestamps | src/components/VideoLearningInterface.tsx:216-268 | the answer is the skill-name fallback iff the extracted timestamps are empty |
| VideoLearning.LookupsIgnoreCase | src/components/VideoLearningInterface.tsx:217-244 | both lookups give the same result for the input and its lowercase form |
| VideoLearning.BreakerRuleWins | src/components/VideoLearningInterface.tsx:247-249 | a question mentioning breaker, wire and feed gets [72], whatever else it mentions |
| VideoLearning.ChatPanel.constructor | src/components/VideoLearningInterface.tsx:32-37 | no messages, empty input, not loading, not interacted, time 0, and no player yet |
| VideoLearning.ChatPanel.SetInput | src/components/VideoLearningInterface.tsx:33 | only the input text changes |
| VideoLearning.ChatPanel.HandleSendMessage | src/components/VideoLearningInterface.tsx:187-214 | whitespace-only input changes nothing; otherwise the user message and then the AI answer with its timestamps are appended, the input is cleared, loading ends false, and the panel counts as used |
| VideoLearning.ChatPanel.SeekToTimestamp | src/components/VideoLearningInterface.tsx:154-171 | with a player it seeks, plays, marks the panel used and appends exactly one system message "Jumped to M:SS"; without one nothing changes |
| VideoLearning.ChatPanel.OnPlayerReady | src/components/VideoLearningInterface.tsx:136-137 | the player exists and is ready; nothing else changes |
| VideoLearning.ChatPanel.OnTimeUpdate | src/components/VideoLearningInterface.tsx:139-143 | the shown time is the player's time floored to whole seconds |
| VideoLearning.ChatPanel.OnPlaying | src/components/VideoLearningInterface.tsx:148-152 | playing marks the panel used |
| VideoLearning.SentAnswerTimes | src/components/VideoLearningInterface.tsx:203-209 | the appended answer carries the timestamps of the question's rule, and its text is the fallback iff it carries none |
| TimeFormat.DigitsValueLeadingZero | src/utils/VideoAssistant.ts:320 | a leading padding zero does not change the value of a digit string |
| TimeFormat.FormatTimeParts | src/utils/VideoAssistant.ts:317-321 | the text is digits, a colon and exactly two digits, reading as s div 60 and s mod 60 |
| TimeFormat.FormatTimeInjective | src/utils/VideoAssistant.ts:317-321 | different times format differently |
| TimeFormat.FormatTimeDigits | src/utils/circuitDesignTranscript.ts:6 | below 6000 s the format agrees with the digit-by-digit clock used for the transcript displays |
| TimeFormat.ClockOfParts | src/utils/VideoAssistant.ts:317-321 | minutes below 100 and seconds below 60 render as the minute digits, a colon and two second digits |
| Player.ErrorMessage | src/components/YouTubePlayer.tsx:147-168 | 2 gives 'Invalid video ID', 5 the HTML5 message, 100 'Video not found or private', 101 and 150 the region message, and every other code 'Video unavailable', each iff |
| Player.PlayerFormatTimeFloors | src/components/YouTubePlayer.tsx:258-262 | a time in seconds shows as the M:SS of its whole seconds: floored minutes and floored, padded seconds |
| Player.Percent | src/components/YouTubePlayer.tsx:352-359 | 0 while the duration is 0; within [0, 100] for a time within the video |
| Player.PercentMonotone | src/components/YouTubePlayer.tsx:352-359 | a later time never sits further left on the bar |
| Player.JumpTarget | src/components/YouTubePlayer.tsx:220-223 | the target lies in [0, duration] for a non-negative duration, and is the plain sum when that is already inside |
| Player.ChaptersOnSegments | src/components/YouTubePlayer.tsx:78-88 | the chapter timestamps strictly increase, and each chapter starts exactly at the timestamp of a named row (`ChapterRows`) of the circuit-design transcript |
| Player.TicksWithUnreadyHandlers | src/components/YouTubePlayer.tsx:136-190 | when the handlers captured a not-ready player, any run of ticks leaves the whole state unchanged, whatever the player reports |
| Player.PlayingAfterMountShowsNoTicks | src/components/YouTubePlayer.tsx:116-190 | after mounting, becoming ready and starting to play, the interval runs but the shown time stays 0 through any run of ticks |
| Player.YouTubePlayer.constructor | src/components/YouTubePlayer.tsx:63-75 | the state is `InitialPlayerState`: no player, not ready or playing, time and duration 0, rate 1, no jump and no error, and no handlers built |
| Player.YouTubePlayer.Created | src/components/YouTubePlayer.tsx:116-175 | the player object exists, its handlers keep the current `isReady`, and no other part of the state changes |
| Player.YouTubePlayer.OnReady | src/components/YouTubePlayer.tsx:131-135 | ready, with the video's duration, and no other part of the state changes |
| Player.YouTubePlayer.OnStateChange | src/components/YouTubePlayer.tsx:136-146 | playing, and the time updates run, iff the state is PLAYING; no other part of the state changes |
| Player.YouTubePlayer.OnError | src/components/YouTubePlayer.tsx:147-168 | the error shown is the code's message, and no other part of the state changes |
| Player.YouTubePlayer.Retry | src/components/YouTubePlayer.tsx:310-313 | the error is cleared, and no other part of the state changes |
| Player.YouTubePlayer.TimeTick | src/components/YouTubePlayer.tsx:181-190 | the new state is `Ticked` of the old one: when the handlers were built with a ready player, exactly the shown time and duration change, to the player's; otherwise nothing changes |
| Player.YouTubePlayer.SeekTo | src/components/YouTubePlayer.tsx:201-206 | a ready player moves to the time, which is shown, and nothing else changes; otherwise nothing changes |
| Player.YouTubePlayer.Play | src/components/YouTubePlayer.tsx:208-212 | a ready player is told to play and nothing else changes; otherwise nothing changes |
| Player.YouTubePlayer.Pause | src/components/YouTubePlayer.tsx:214-218 | a ready player is told to pause and nothing else changes; otherwise nothing changes |
| Player.YouTubePlayer.JumpSeconds | src/components/YouTubePlayer.tsx:220-223 | a ready player moves to the clamped target, never before 0 or past the end, and nothing else changes; otherwise nothing changes |
| Player.YouTubePlayer.ChangePlaybackRate | src/components/YouTubePlayer.tsx:225-230 | a ready player takes and shows the new rate and nothing else changes; otherwise nothing changes |
| Player.YouTubePlayer.BeginJump | src/components/YouTubePlayer.tsx:233-237 | a ready player shows the jump overlay "Jumping to M:SS" and nothing else changes; otherwise nothing changes |
| Player.YouTubePlayer.FinishJump | src/components/YouTubePlayer.tsx:240-254 | a ready player seeks to the timestamp, shows it and plays; the overlay is cleared; nothing else changes |
| Text.LowerStr | src/utils/aiProcessor.ts:62-63 | `toLowerCase` over ASCII: same length, each letter A-Z lowered and every other character kept |
| Text.LowerStrIdempotent | src/components/VideoLearningInterface.tsx:217-244 | lowercasing twice is lowercasing once |
| Text.ContainsAt | src/utils/aiProcessor.ts:62-63 | `includes`: the needle occurs at some position |
| Text.IndexOf | src/utils/VideoAssistant.ts:250 | `indexOf`: -1 iff the needle does not occur, else its first position |
| Text.Substring | src/utils/VideoAssistant.ts:245-254 | `substring` of in-range bounds, swapping them when they are reversed |
| Text.Take | src/utils/VideoAssistant.ts:74 | the first n characters, or all of a shorter string |
| Text.JoinSplit | src/utils/aiProcessor.ts:140 | `split` loses nothing: joining the pieces with the separator gives the string back |
| Text.SplitAfterPlainPrefix | src/pages/QuestionFlow.tsx:70-84 | splitting "a" + separator + "b", where no character of a is the separator's first, gives a and then the pieces of b |
| Text.TrimEmptyIffBlank | src/pages/QuestionFlow.tsx:118-120 | `trim` leaves nothing iff the string is all whitespace |
| Text.NatToString | src/utils/VideoAssistant.ts:320 | decimal digits without a leading zero |
| Text.DigitsOfNat | src/utils/VideoAssistant.ts:320 | the rendered digits read back as the number |
| Text.ParseIntOfIntToString | src/pages/QuestionFlow.tsx:71-84 | `parseInt` of a rendered integer followed by a tail that starts with neither a digit nor x gives the integer back |
| Text.PadStart2 | src/utils/VideoAssistant.ts:320 | `padStart(2, '0')`: at least 2 characters, and exactly 2 for a shorter input |
| Text.PadStart2Shape | src/utils/VideoAssistant.ts:320 | the padded string ends in the input, with only zeros in front |
| Seqs.FilterIsSubseq | src/utils/aiProcessor.ts:91 | `filter` keeps an order-preserving subsequence |
| Seqs.SortDescSorted | src/utils/aiProcessor.ts:113-121 | the insertion sort's output is sorted by its key, non-increasing |
| Seqs.SortDesc | src/utils/aiProcessor.ts:113-121 | the sort's output is a permutation of its input |
| Seqs.SortDescStable | src/utils/aiProcessor.ts:113-121 | entries of one key keep their input order, as a stable `Array.prototype.sort` requires |
| Seqs.DedupeFirstOccurrences | src/utils/VideoAssistant.ts:241-305 | removing repeats leaves distinct items in first-occurrence order |

## Left out

- Resume skill extraction (`extractSkillsFromResume`): it is a timer followed by a random choice from a canned list, so its outcome is an input of `ResumeUpload.UploadPage.HandleFileUpload`.
- `Math.random`: replaced by the `rolls` and `keep` inputs described above.
- Timers and intervals: the character-by-character typing of the demo, the thinking delays, the pause between demo questions, the toast, highlight and auto-hide timeouts, and the journey map's drawing animation. Each delayed callback is a separate step or is folded into the step that starts it.
- The Vapi voice SDK and its push-to-talk session: a spoken question enters the model as a question string.
- Loading the YouTube IFrame API and constructing the player: the player's callbacks are methods of `Player.YouTubePlayer`.
- DOM and drag events, JSX layout, CSS, SVG geometry beyond node positions, colours, icons and labels, routing, and the `TradeSelection`, `QuestionCard`, `ProgressBar` and `App` components: these are presentation only.
- JavaScript double arithmetic: scores are exact tenths, hundredths or reals, so a double rounding at the 0.3 threshold or the 0.7 autoplay bound is not modelled. Likewise, the circuit ranker's sums such as `matches * 0.3` (src/utils/circuitDesignTranscript.ts:388) are inexact in doubles. Segments the model scores equal can then be ordered differently by `b.score - a.score` (line 443), which can change which 8 survive `.slice(0, 8)` (line 444).
- `parseInt` beyond the decimal and hexadecimal forms it accepts here: precision loss on very long digit strings is not modelled.
- Console logging, and the `Date.now()` ids and `Date` stamps of chat messages: the model's messages carry neither.
- Non-ASCII case mapping: `toLowerCase` lowercases only ASCII letters in the model.
- Lookups in object literals by keys such as `constructor` or `__proto__`, which the prototype would answer.
- `getRecommendedSkills`: it returns a constant list and decides nothing.
- `JourneyMap.Completion`: an empty node list gives no percentage, where the source computes `NaN`.
- `JourneyMap.Completion`: `Math.round` is modelled exactly on rationals, so halves always round up and no floating-point error arises.
- `CircuitTranscript.FindRelevantTimestamps`: requires a query without regular-expression metacharacters, because `new RegExp(keyword, 'g')` (matched against the lowercased text) gives those characters a meaning and throws on an unbalanced bracket.
- `CircuitTranscript.SearchTranscript`: the same requirement as `FindRelevantTimestamps`, for the same reason.
- `Player.YouTubePlayer.BeginJump`: the message is built for whole-second timestamps; `toFixed(0)` rounding of a fractional remainder is not modelled.
- `Player.YouTubePlayer.FinishJump`: the 500 ms wait before the seek and the 1 s wait before the overlay clears are one step, and the 3 s segment highlight is left out.
- `Player.YouTubePlayer.Retry`: clears the error only; the re-initialisation of the player that follows is the construction left out above.
- `Player.Percent`: the time and duration are exact reals, not doubles.
- `VideoLearning.ChatPanel.HandleSendMessage`: the loading flag is set and cleared within the one call, so the model states only its final value (false); the intermediate render is not modelled.
- `Results.ResultsPage.AnalyzeResults`: the transient demo score 65 set before the analysis score is modelled but immediately overwritten (`Results.ScoreOverwritten`), so the page never shows it.
