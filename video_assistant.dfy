/** The transcript question answerer: keyword extraction, a coarse segment gate, relevance
    scoring with a bonus for segments not yet watched, ranking, and the three response
    branches. Relevance scores are computed in integer tenths (0.3 is 3, 1.0 is 10) and
    stored in a `RankedTimestamp` in hundredths (0.3 is 30). */
module Assistant {
  import opened Text
  import opened Seqs
  import opened TimeFormat

  datatype TranscriptSegment = TranscriptSegment(
    startTime: nat,
    endTime: nat,
    text: string,
    keywords: seq<string>,
    topics: seq<string>)

  datatype VideoTranscript = VideoTranscript(segments: seq<TranscriptSegment>, duration: nat, title: string)

  /** A ranked moment of the video; `relevanceScore` is in hundredths (0.98 is 98). */
  datatype RankedTimestamp = RankedTimestamp(timestamp: nat, relevanceScore: int, description: string, context: string)

  datatype VideoResponse = VideoResponse(
    message: string,
    timestamps: seq<RankedTimestamp>,
    suggestedQuestions: seq<string>,
    shouldAutoPlay: bool,
    confidence: real)

  // ---------------------------------------------------------------- keyword extraction

  const StopWords: set<string> := {"the", "a", "an", "and", "or", "but", "in", "on", "at", "to",
    "for", "of", "with", "by", "how", "what", "where", "when", "why", "is", "are", "was",
    "were", "do", "does", "did", "can", "could", "should", "would", "will"}

  /** `replace(/[^\w\s]/g, ' ')`, one character at a time. */
  function Blank(c: char): (r: char)
    ensures IsWordChar(r) || IsSpace(r)
    ensures IsWordChar(c) || IsSpace(c) ==> r == c
  {
    if IsWordChar(c) || IsSpace(c) then c else ' '
  }

  function BlankStr(s: string): (r: string)
    ensures |r| == |s|
    ensures forall i :: 0 <= i < |s| ==> r[i] == Blank(s[i])
  {
    seq(|s|, i requires 0 <= i < |s| => Blank(s[i]))
  }

  /** `s.split(/\s+/)`: the pieces between maximal runs of white space; a leading or a
      trailing run yields an empty first or last piece. */
  function SplitWhite(s: string): (parts: seq<string>)
    ensures |parts| >= 1
    ensures forall k :: 0 <= k < |parts| ==> forall c :: c in parts[k] ==> c in s && !IsSpace(c)
    decreases |s|
  {
    if s == [] then [[]]
    else if IsSpace(s[0]) then
      var t := TrimStart(s);
      assert forall c :: c in t ==> c in s;
      [[]] + SplitWhite(t)
    else
      var rest := SplitWhite(s[1..]);
      [[s[0]] + rest[0]] + rest[1..]
  }

  predicate IsCandidate(w: string)
  {
    |w| > 2 && w !in StopWords
  }

  /** `extractKeywords`: lowercase, blank out everything but word characters and white
      space, split on white space, drop short words and stop words, keep first occurrences. */
  function ExtractKeywords(text: string): (kws: seq<string>)
  {
    Dedupe(Filter(SplitWhite(BlankStr(LowerStr(text))), IsCandidate))
  }

  predicate IsLowerWordChar(c: char)
  {
    ('a' <= c <= 'z') || ('0' <= c <= '9') || c == '_'
  }

  /** After lowercasing and blanking, every character that is not white space is a
      lowercase word character. */
  lemma BlankedLowerChars(text: string)
    ensures var b := BlankStr(LowerStr(text));
      forall c :: c in b && !IsSpace(c) ==> IsLowerWordChar(c)
  {
    var l := LowerStr(text);
    var b := BlankStr(l);
    forall c | c in b && !IsSpace(c)
      ensures IsLowerWordChar(c)
    {
      var j :| 0 <= j < |b| && b[j] == c;
      assert b[j] == Blank(l[j]) && l[j] == Lower(text[j]);
    }
  }

  /** Every keyword is longer than two characters, made of `[a-z0-9_]` only, and not a stop
      word. */
  lemma KeywordChars(text: string)
    ensures var kws := ExtractKeywords(text);
      forall i :: 0 <= i < |kws| ==>
        |kws[i]| > 2 && kws[i] !in StopWords && (forall c :: c in kws[i] ==> IsLowerWordChar(c))
  {
    var b := BlankStr(LowerStr(text));
    var parts := SplitWhite(b);
    var words := Filter(parts, IsCandidate);
    var kws := ExtractKeywords(text);
    BlankedLowerChars(text);
    forall i | 0 <= i < |kws|
      ensures |kws[i]| > 2 && kws[i] !in StopWords && forall c :: c in kws[i] ==> IsLowerWordChar(c)
    {
      assert kws[i] in words;
      var k :| 0 <= k < |parts| && parts[k] == kws[i];
    }
  }

  /** Every keyword is longer than two characters, made of `[a-z0-9_]` only, not a stop word;
      there are no repeats, and keywords come in the order of their first occurrence. */
  lemma ExtractKeywordsShape(text: string)
    ensures var kws := ExtractKeywords(text);
      (forall i :: 0 <= i < |kws| ==>
        |kws[i]| > 2 && kws[i] !in StopWords && (forall c :: c in kws[i] ==> IsLowerWordChar(c))) &&
      Distinct(kws)
    ensures var words := Filter(SplitWhite(BlankStr(LowerStr(text))), IsCandidate);
      var kws := ExtractKeywords(text);
      forall i, j :: 0 <= i < j < |kws| ==> FirstIndex(words, kws[i]) < FirstIndex(words, kws[j])
  {
    KeywordChars(text);
    DedupeFirstOccurrences(Filter(SplitWhite(BlankStr(LowerStr(text))), IsCandidate));
  }

  // ---------------------------------------------------------------- the segment gate

  /** Some entry of a segment's keyword list contains `k` once lowercased. */
  predicate ListMentions(list: seq<string>, k: string)
  {
    exists j :: 0 <= j < |list| && Contains(LowerStr(list[j]), k)
  }

  predicate SegmentMentions(seg: TranscriptSegment, k: string)
  {
    Contains(LowerStr(seg.text), k) || ListMentions(seg.keywords, k)
  }

  predicate IsRelevant(kws: seq<string>, seg: TranscriptSegment)
  {
    exists i :: 0 <= i < |kws| && SegmentMentions(seg, kws[i])
  }

  /** `findRelevantSegments`. */
  function FindRelevantSegments(segments: seq<TranscriptSegment>, question: string): (r: seq<TranscriptSegment>)
    ensures |r| <= |segments|
  {
    var kws := ExtractKeywords(LowerStr(question));
    Filter(segments, seg => IsRelevant(kws, seg))
  }

  /** The gate keeps transcript order and keeps exactly the segments that mention some
      question keyword in their lowercased text or in a lowercased entry of their keyword
      list. */
  lemma FindRelevantSegmentsSpec(segments: seq<TranscriptSegment>, question: string)
    ensures var kws := ExtractKeywords(LowerStr(question));
      var r := FindRelevantSegments(segments, question);
      IsSubseq(r, segments) &&
      (forall i :: 0 <= i < |r| ==> IsRelevant(kws, r[i])) &&
      (forall i :: 0 <= i < |segments| ==> (segments[i] in r <==> IsRelevant(kws, segments[i])))
  {
    var kws := ExtractKeywords(LowerStr(question));
    FilterIsSubseq(segments, seg => IsRelevant(kws, seg));
  }

  // ---------------------------------------------------------------- relevance scores

  /** How many of `kws` occur in `text`. */
  function CountMentions(text: string, kws: seq<string>): (n: nat)
    ensures n <= |kws|
  {
    if kws == [] then 0
    else CountMentions(text, kws[..|kws| - 1]) + (if Contains(text, kws[|kws| - 1]) then 1 else 0)
  }

  /** How many of `kws` occur in some entry of `list`. */
  function CountListMentions(list: seq<string>, kws: seq<string>): (n: nat)
    ensures n <= |kws|
  {
    if kws == [] then 0
    else CountListMentions(list, kws[..|kws| - 1]) + (if ListMentions(list, kws[|kws| - 1]) then 1 else 0)
  }

  /** The number of (topic, keyword) pairs where the lowercased topic contains the keyword. */
  function TopicMentions(topics: seq<string>, kws: seq<string>): (n: nat)
    ensures n <= |topics| * |kws|
  {
    if topics == [] then 0
    else TopicMentions(topics[..|topics| - 1], kws) + CountMentions(LowerStr(topics[|topics| - 1]), kws)
  }

  predicate Unwatched(seg: TranscriptSegment, watched: seq<int>)
  {
    seg.startTime as int !in watched
  }

  /** The score before the cap, in tenths: 3 per keyword in the text, 2 per keyword in the
      keyword list, 4 per topic and keyword pair, and 1 when the segment is unwatched. */
  function RawScore(kws: seq<string>, seg: TranscriptSegment, watched: seq<int>): nat
  {
    3 * CountMentions(LowerStr(seg.text), kws) + 2 * CountListMentions(seg.keywords, kws)
    + 4 * TopicMentions(seg.topics, kws) + (if Unwatched(seg, watched) then 1 else 0)
  }

  /** `calculateRelevanceScore`, in tenths. */
  function RelevanceScore(kws: seq<string>, seg: TranscriptSegment, watched: seq<int>): (r: int)
    ensures 0 <= r <= 10
    ensures r <= RawScore(kws, seg, watched)
    ensures r == 10 || r == RawScore(kws, seg, watched)
  {
    var raw := RawScore(kws, seg, watched);
    if raw < 10 then raw else 10
  }

  /** The watched list only decides the 0.1 novelty bonus: a segment missing from one list
      and present in another scores one tenth more under the first, up to the cap. */
  lemma NoveltyBonus(kws: seq<string>, seg: TranscriptSegment, w1: seq<int>, w2: seq<int>)
    requires Unwatched(seg, w1) && !Unwatched(seg, w2)
    ensures RelevanceScore(kws, seg, w1) == if RelevanceScore(kws, seg, w2) < 10 then RelevanceScore(kws, seg, w2) + 1 else 10
  {
  }

  lemma {:induction false} CountMentionsNone(text: string, kws: seq<string>)
    requires forall i :: 0 <= i < |kws| ==> !Contains(text, kws[i])
    ensures CountMentions(text, kws) == 0
  {
    if kws != [] {
      CountMentionsNone(text, kws[..|kws| - 1]);
    }
  }

  lemma {:induction false} CountListMentionsNone(list: seq<string>, kws: seq<string>)
    requires forall i :: 0 <= i < |kws| ==> !ListMentions(list, kws[i])
    ensures CountListMentions(list, kws) == 0
  {
    if kws != [] {
      CountListMentionsNone(list, kws[..|kws| - 1]);
    }
  }

  lemma {:induction false} NoTopicMentions(topics: seq<string>, kws: seq<string>)
    requires forall t, i :: 0 <= t < |topics| && 0 <= i < |kws| ==> !Contains(LowerStr(topics[t]), kws[i])
    ensures TopicMentions(topics, kws) == 0
  {
    if topics != [] {
      NoTopicMentions(topics[..|topics| - 1], kws);
      CountMentionsNone(LowerStr(topics[|topics| - 1]), kws);
    }
  }

  /** A segment that no keyword reaches, in its text, keyword list or topics, scores at
      most the novelty tenth and so is never ranked. */
  lemma UnmentionedScoresAtMostOne(kws: seq<string>, seg: TranscriptSegment, watched: seq<int>)
    requires !IsRelevant(kws, seg)
    requires forall t, i :: 0 <= t < |seg.topics| && 0 <= i < |kws| ==> !Contains(LowerStr(seg.topics[t]), kws[i])
    ensures RelevanceScore(kws, seg, watched) <= 1
  {
    CountMentionsNone(LowerStr(seg.text), kws);
    CountListMentionsNone(seg.keywords, kws);
    NoTopicMentions(seg.topics, kws);
  }

  // ---------------------------------------------------------------- descriptions

  function Max0(n: int): nat
  {
    if n < 0 then 0 else n
  }

  function MinInt(a: int, b: int): int
  {
    if a < b then a else b
  }

  /** The text within 50 characters either side of position `index`. */
  function Window(text: string, index: int): (r: string)
    ensures |r| <= 100
  {
    Substring(text, Max0(index - 50), MinInt(|text|, index + 50))
  }

  /** The loop of `generateDescription`: the window around the first keyword, in keyword
      order, that occurs in the lowercased text; the first 100 characters otherwise. */
  function DescribeFrom(text: string, kws: seq<string>): (r: string)
    ensures |r| <= 103
    ensures (forall i :: 0 <= i < |kws| ==> !Contains(LowerStr(text), kws[i])) ==> r == Take(text, 100) + "..."
    ensures forall i ::
      (0 <= i < |kws| && Contains(LowerStr(text), kws[i]) &&
       (forall j :: 0 <= j < i ==> !Contains(LowerStr(text), kws[j])))
      ==> r == Window(text, IndexOf(LowerStr(text), kws[i])) + "..."
  {
    if kws == [] then Take(text, 100) + "..."
    else
      var index := IndexOf(LowerStr(text), kws[0]);
      if index != -1 then Window(text, index) + "..."
      else
        var r := DescribeFrom(text, kws[1..]);
        assert forall i :: 1 <= i < |kws| ==> kws[i] == kws[1..][i - 1];
        r
  }

  function GenerateDescription(seg: TranscriptSegment, question: string): string
  {
    DescribeFrom(seg.text, ExtractKeywords(LowerStr(question)))
  }

  /** The context table, in its declaration order. */
  const ContextTable: seq<(string, string)> := [
    ("safety", "Safety and precautions"),
    ("component", "Circuit components"),
    ("calculation", "Mathematical calculations"),
    ("practical", "Hands-on demonstration"),
    ("theory", "Theoretical concepts"),
    ("troubleshooting", "Problem solving")]

  const DefaultContext: string := "Circuit design fundamentals"

  predicate TopicsMention(topics: seq<string>, key: string)
  {
    exists t :: 0 <= t < |topics| && Contains(LowerStr(topics[t]), key)
  }

  /** The description of the first table entry whose key occurs in some lowercased topic,
      or the default when none does. */
  function ContextFrom(topics: seq<string>, table: seq<(string, string)>): (r: string)
    ensures (forall i :: 0 <= i < |table| ==> !TopicsMention(topics, table[i].0)) ==> r == DefaultContext
    ensures forall i ::
      (0 <= i < |table| && TopicsMention(topics, table[i].0) &&
       (forall j :: 0 <= j < i ==> !TopicsMention(topics, table[j].0)))
      ==> r == table[i].1
  {
    if table == [] then DefaultContext
    else if TopicsMention(topics, table[0].0) then table[0].1
    else
      var r := ContextFrom(topics, table[1..]);
      assert forall i :: 1 <= i < |table| ==> table[i] == table[1..][i - 1];
      r
  }

  /** `getContextDescription`. */
  function ContextDescription(seg: TranscriptSegment): string
  {
    ContextFrom(seg.topics, ContextTable)
  }

  // ---------------------------------------------------------------- ranking

  function RankOne(question: string, seg: TranscriptSegment, watched: seq<int>): (r: RankedTimestamp)
    ensures r.timestamp == seg.startTime
    ensures r.relevanceScore == 10 * RelevanceScore(ExtractKeywords(LowerStr(question)), seg, watched)
  {
    RankedTimestamp(seg.startTime, 10 * RelevanceScore(ExtractKeywords(LowerStr(question)), seg, watched),
                    GenerateDescription(seg, question), ContextDescription(seg))
  }

  /** `relevanceScore > 0.3`. */
  predicate Passes(r: RankedTimestamp)
  {
    r.relevanceScore > 30
  }

  function ScoreKey(r: RankedTimestamp): Rank
  {
    Rank(r.relevanceScore, 0)
  }

  function Scored(question: string, segments: seq<TranscriptSegment>, watched: seq<int>): (r: seq<RankedTimestamp>)
    ensures |r| == |segments|
    ensures forall i :: 0 <= i < |segments| ==> r[i] == RankOne(question, segments[i], watched)
  {
    Map(segments, seg => RankOne(question, seg, watched))
  }

  /** `rankTimestamps`: score every segment, keep scores above 0.3, sort by score
      (stable, highest first). */
  function RankTimestamps(question: string, segments: seq<TranscriptSegment>, watched: seq<int>): (r: seq<RankedTimestamp>)
    ensures |r| <= |segments|
  {
    SortDesc(Filter(Scored(question, segments, watched), Passes), ScoreKey)
  }

  /** Every ranked entry scores above 0.3 (so at least 0.4) and at most 1 and is the entry of an input
      segment, so its timestamp is that segment's start. */
  lemma RankedEntriesFromSegments(question: string, segments: seq<TranscriptSegment>, watched: seq<int>)
    ensures var r := RankTimestamps(question, segments, watched);
      forall i :: 0 <= i < |r| ==>
        40 <= r[i].relevanceScore <= 100 &&
        exists k :: 0 <= k < |segments| && r[i] == RankOne(question, segments[k], watched)
  {
    var scored := Scored(question, segments, watched);
    var kept := Filter(scored, Passes);
    var r := RankTimestamps(question, segments, watched);
    forall i | 0 <= i < |r|
      ensures 40 <= r[i].relevanceScore <= 100 &&
        exists k :: 0 <= k < |segments| && r[i] == RankOne(question, segments[k], watched)
    {
      assert r[i] in multiset(kept);
      assert r[i] in kept;
      var k :| 0 <= k < |scored| && scored[k] == r[i];
      var v := RelevanceScore(ExtractKeywords(LowerStr(question)), segments[k], watched);
      assert r[i].relevanceScore == 10 * v && v <= 10;
      assert Passes(r[i]);
      assert 4 <= v;
    }
  }

  /** Every input segment whose score is above 0.3 is ranked. */
  lemma RankedComplete(question: string, segments: seq<TranscriptSegment>, watched: seq<int>)
    ensures forall k :: 0 <= k < |segments| && Passes(RankOne(question, segments[k], watched)) ==>
      RankOne(question, segments[k], watched) in RankTimestamps(question, segments, watched)
  {
    var scored := Scored(question, segments, watched);
    var kept := Filter(scored, Passes);
    var r := RankTimestamps(question, segments, watched);
    forall k | 0 <= k < |segments| && Passes(RankOne(question, segments[k], watched))
      ensures RankOne(question, segments[k], watched) in r
    {
      assert scored[k] in kept;
      assert scored[k] in multiset(r);
    }
  }

  /** Scores do not increase along the ranking, and entries with equal scores keep their
      input order. */
  lemma RankedOrder(question: string, segments: seq<TranscriptSegment>, watched: seq<int>)
    ensures var r := RankTimestamps(question, segments, watched);
      forall i, j :: 0 <= i < j < |r| ==> r[i].relevanceScore >= r[j].relevanceScore
    ensures forall key ::
      WithKey(RankTimestamps(question, segments, watched), ScoreKey, key)
      == WithKey(Filter(Scored(question, segments, watched), Passes), ScoreKey, key)
  {
    var kept := Filter(Scored(question, segments, watched), Passes);
    var r := RankTimestamps(question, segments, watched);
    SortDescSorted(kept, ScoreKey);
    forall i, j | 0 <= i < j < |r|
      ensures r[i].relevanceScore >= r[j].relevanceScore
    {
      assert AtLeast(ScoreKey(r[i]), ScoreKey(r[j]));
    }
    forall key
      ensures WithKey(r, ScoreKey, key) == WithKey(kept, ScoreKey, key)
    {
      SortDescStable(kept, ScoreKey, key);
    }
  }

  // ---------------------------------------------------------------- question categories

  datatype QuestionType = CircuitBasics | Components | SafetyQuestion | Calculations | General

  predicate AnyIn(text: string, words: seq<string>)
  {
    exists i :: 0 <= i < |words| && Contains(text, words[i])
  }

  lemma AnyInThree(text: string, a: string, b: string, c: string)
    ensures AnyIn(text, [a, b, c]) <==> Contains(text, a) || Contains(text, b) || Contains(text, c)
  {
    var w := [a, b, c];
    if Contains(text, a) { assert Contains(text, w[0]); }
    if Contains(text, b) { assert Contains(text, w[1]); }
    if Contains(text, c) { assert Contains(text, w[2]); }
  }

  const SafetyWords: seq<string> := ["safety", "danger", "precaution"]
  const ComponentWords: seq<string> := ["resistor", "capacitor", "component"]
  const CalculationWords: seq<string> := ["calculate", "formula", "ohm"]
  const CircuitWords: seq<string> := ["circuit", "series", "parallel"]

  /** `categorizeQuestion`: safety before components before calculations before circuit
      basics; anything else is general. */
  function CategorizeQuestion(question: string): (t: QuestionType)
    ensures var q := LowerStr(question);
      (t == SafetyQuestion <==> AnyIn(q, SafetyWords)) &&
      (t == Components <==> !AnyIn(q, SafetyWords) && AnyIn(q, ComponentWords)) &&
      (t == Calculations <==> !AnyIn(q, SafetyWords) && !AnyIn(q, ComponentWords) && AnyIn(q, CalculationWords)) &&
      (t == CircuitBasics <==> !AnyIn(q, SafetyWords) && !AnyIn(q, ComponentWords) &&
                               !AnyIn(q, CalculationWords) && AnyIn(q, CircuitWords)) &&
      (t == General <==> !AnyIn(q, SafetyWords) && !AnyIn(q, ComponentWords) &&
                         !AnyIn(q, CalculationWords) && !AnyIn(q, CircuitWords))
  {
    var q := LowerStr(question);
    AnyInThree(q, "safety", "danger", "precaution");
    AnyInThree(q, "resistor", "capacitor", "component");
    AnyInThree(q, "calculate", "formula", "ohm");
    AnyInThree(q, "circuit", "series", "parallel");
    if Contains(q, "safety") || Contains(q, "danger") || Contains(q, "precaution") then SafetyQuestion
    else if Contains(q, "resistor") || Contains(q, "capacitor") || Contains(q, "component") then Components
    else if Contains(q, "calculate") || Contains(q, "formula") || Contains(q, "ohm") then Calculations
    else if Contains(q, "circuit") || Contains(q, "series") || Contains(q, "parallel") then CircuitBasics
    else General
  }

  /** The three follow-up questions offered for each question type. */
  function FollowUpPool(t: QuestionType): (pool: seq<string>)
    ensures |pool| == 3
  {
    match t
    case CircuitBasics => ["What safety equipment do I need for circuit work?",
                           "How do I calculate voltage in a parallel circuit?",
                           "What tools are essential for circuit design?"]
    case Components => ["How do resistors affect current flow?",
                        "When should I use capacitors in my circuit?",
                        "What's the difference between AC and DC components?"]
    case SafetyQuestion => ["What are the most common circuit design mistakes?",
                            "How do I test if my circuit is safe?",
                            "What voltage levels require special precautions?"]
    case Calculations => ["Can you show me more examples of Ohm's law?",
                          "How do I calculate power consumption?",
                          "What's the best way to measure circuit values?"]
    case General => ["What are the fundamental circuit design principles?",
                     "How do I troubleshoot a circuit that isn't working?",
                     "What should beginners know about circuit safety?"]
  }

  /** `s.filter(() => Math.random() > 0.3)` with the draws given: element i stays exactly
      when `keep[i]` holds. */
  function KeepWhere<T>(s: seq<T>, keep: seq<bool>): (r: seq<T>)
    requires |keep| == |s|
    ensures |r| <= |s|
    decreases |s|
  {
    if s == [] then []
    else if keep[0] then [s[0]] + KeepWhere(s[1..], keep[1..])
    else KeepWhere(s[1..], keep[1..])
  }

  lemma {:induction false} KeepWhereSubseq<T>(s: seq<T>, keep: seq<bool>)
    requires |keep| == |s|
    ensures IsSubseq(KeepWhere(s, keep), s)
    decreases |s|
  {
    if s != [] {
      KeepWhereSubseq(s[1..], keep[1..]);
      if keep[0] {
        assert KeepWhere(s, keep)[1..] == KeepWhere(s[1..], keep[1..]);
      } else {
        SubseqCons(KeepWhere(s[1..], keep[1..]), s[0], s[1..]);
        assert [s[0]] + s[1..] == s;
      }
    }
  }

  /** `suggestFollowUpQuestions`, with `keep` standing for the three random draws. */
  function SuggestFollowUpQuestions(question: string, keep: seq<bool>): (r: seq<string>)
    requires |keep| == 3
    ensures |r| <= 2
  {
    Prefix(KeepWhere(FollowUpPool(CategorizeQuestion(question)), keep), 2)
  }

  /** At most two follow-ups, forming an order-preserving sublist of the pool of the
      question's type. */
  lemma FollowUpsFromPool(question: string, keep: seq<bool>)
    requires |keep| == 3
    ensures IsSubseq(SuggestFollowUpQuestions(question, keep), FollowUpPool(CategorizeQuestion(question)))
  {
    var pool := FollowUpPool(CategorizeQuestion(question));
    var kept := KeepWhere(pool, keep);
    KeepWhereSubseq(pool, keep);
    PrefixSubseq(kept, 2);
    SubseqTrans(Prefix(kept, 2), kept, pool);
  }

  // ---------------------------------------------------------------- the vague branch

  const VaguePhrases: seq<string> := ["what", "how", "tell me", "explain", "about"]

  /** `isQuestionTooVague`. */
  predicate IsQuestionTooVague(question: string)
  {
    |SplitBy(LowerStr(question), " ")| < 3 || LowerStr(question) in VaguePhrases || |Trim(question)| < 10
  }

  /** Matching a vague phrase never decides the outcome: every phrase is shorter than ten
      characters, so the length test already catches it. */
  lemma VaguePhraseTestRedundant(question: string)
    ensures IsQuestionTooVague(question)
      <==> |SplitBy(LowerStr(question), " ")| < 3 || |Trim(question)| < 10
  {
    if LowerStr(question) in VaguePhrases {
      assert |question| == |LowerStr(question)| < 10;
    }
  }

  const VagueMessage: string := "Could you be more specific? For example, you could ask:\n\U{2022} \"How do series circuits work?\"\n\U{2022} \"What safety equipment do I need?\"\n\U{2022} \"How do I calculate voltage in a parallel circuit?\""

  /** `handleVagueQuestion`. */
  function HandleVagueQuestion(question: string): (r: VideoResponse)
    ensures r.timestamps == [] && !r.shouldAutoPlay && r.confidence == 0.2
    ensures |r.suggestedQuestions| == 3
  {
    VideoResponse(VagueMessage, [],
      ["How do series circuits work?", "What safety equipment do I need?",
       "How do I calculate voltage in a parallel circuit?"],
      false, 0.2)
  }

  // ---------------------------------------------------------------- the no-content branch

  /** Every segment's topics, in transcript order. */
  function AllTopics(segments: seq<TranscriptSegment>): (r: seq<string>)
    ensures forall i, t :: 0 <= i < |segments| && 0 <= t < |segments[i].topics| ==> segments[i].topics[t] in r
  {
    if segments == [] then []
    else
      var rest := AllTopics(segments[1..]);
      assert forall i :: 1 <= i < |segments| ==> segments[i] == segments[1..][i - 1];
      segments[0].topics + rest
  }

  /** `findRelatedTopics`: the first five distinct topics in transcript order (a `Set`
      iterates in insertion order). */
  function FindRelatedTopics(segments: seq<TranscriptSegment>): (r: seq<string>)
    ensures |r| <= 5
  {
    Prefix(Dedupe(AllTopics(segments)), 5)
  }

  function TellMeAbout(topic: string): string
  {
    "Tell me about " + LowerStr(topic)
  }

  /** `handleNoRelevantContent`. */
  function HandleNoRelevantContent(question: string, segments: seq<TranscriptSegment>): (r: VideoResponse)
    ensures r.timestamps == [] && !r.shouldAutoPlay && r.confidence == 0.1
    ensures |r.suggestedQuestions| <= 3
  {
    var related := FindRelatedTopics(segments);
    VideoResponse(
      "I couldn't find specific information about \"" + question
        + "\" in this video. However, this video covers these related topics:\n\n"
        + Join(related, "\n\U{2022} "),
      [], Map(Prefix(related, 3), TellMeAbout), false, 0.1)
  }

  /** The no-content suggestions are "Tell me about <topic>" for the first three of the
      related topics, which are distinct and taken in transcript order. */
  lemma NoContentSuggestions(question: string, segments: seq<TranscriptSegment>)
    ensures var r := HandleNoRelevantContent(question, segments);
      var related := FindRelatedTopics(segments);
      Distinct(related) && related <= Dedupe(AllTopics(segments)) &&
      |r.suggestedQuestions| == (if |related| < 3 then |related| else 3) &&
      forall i :: 0 <= i < |r.suggestedQuestions| ==> r.suggestedQuestions[i] == TellMeAbout(related[i])
  {
    DedupeFirstOccurrences(AllTopics(segments));
  }

  // ---------------------------------------------------------------- confidence

  function SumScores(ranked: seq<RankedTimestamp>): int
  {
    if ranked == [] then 0 else SumScores(ranked[..|ranked| - 1]) + ranked[|ranked| - 1].relevanceScore
  }

  /** `calculateConfidence`: the mean score over every ranked entry, plus 0.1 per keyword
      of the question, capped at 1; 0.1 when nothing is ranked. */
  function CalculateConfidence(question: string, ranked: seq<RankedTimestamp>): (c: real)
    ensures c <= 1.0
  {
    if ranked == [] then 0.1
    else
      var avg := SumScores(ranked) as real / (100 * |ranked|) as real;
      var c := avg + 0.1 * |ExtractKeywords(question)| as real;
      if c < 1.0 then c else 1.0
  }

  lemma {:induction false} SumScoresBounds(ranked: seq<RankedTimestamp>, lo: int, hi: int)
    requires forall i :: 0 <= i < |ranked| ==> lo <= ranked[i].relevanceScore <= hi
    ensures lo * |ranked| <= SumScores(ranked) <= hi * |ranked|
  {
    if ranked != [] {
      SumScoresBounds(ranked[..|ranked| - 1], lo, hi);
    }
  }

  /** When every ranked score is between 0.4 and 1, the confidence is between 0.4
      and 1. */
  lemma ConfidenceBounds(question: string, ranked: seq<RankedTimestamp>)
    requires ranked != []
    requires forall i :: 0 <= i < |ranked| ==> 40 <= ranked[i].relevanceScore <= 100
    ensures 0.4 <= CalculateConfidence(question, ranked) <= 1.0
  {
    SumScoresBounds(ranked, 40, 100);
    var n := |ranked| as real;
    assert SumScores(ranked) as real >= 40.0 * n;
    assert SumScores(ranked) as real / (100.0 * n) >= 0.4;
  }

  // ---------------------------------------------------------------- the answer text

  const NoInfoMessage: string := "I couldn't find specific information about that in this video. Try asking about circuit basics, components, or safety procedures."
  const FoundHeader: string := "I found relevant information about your question:\n\n"

  /** One bullet: the start time and the first 80 characters of the text. */
  function Bullet(seg: TranscriptSegment): string
  {
    "\U{2022} [" + FormatTime(seg.startTime) + "] " + Take(seg.text, 80) + "...\n"
  }

  function Bullets(segs: seq<TranscriptSegment>): string
  {
    if segs == [] then [] else Bullets(segs[..|segs| - 1]) + Bullet(segs[|segs| - 1])
  }

  function JumpClosing(seg: TranscriptSegment): string
  {
    "\nJumping to " + FormatTime(seg.startTime) + " where this topic is covered in detail."
  }

  function RecommendClosing(seg: TranscriptSegment): string
  {
    "\nI recommend starting at " + FormatTime(seg.startTime) + " for the most comprehensive explanation."
  }

  /** The text `generateResponse` builds. */
  function ResponseText(segments: seq<TranscriptSegment>): string
  {
    if segments == [] then NoInfoMessage
    else
      var top := Prefix(segments, 3);
      FoundHeader + Bullets(top) + (if |top| == 1 then JumpClosing(top[0]) else RecommendClosing(top[0]))
  }

  /** Only the first three segments are listed; the answer names the first one's start
      time, with "Jumping to" phrasing exactly when one segment is listed. */
  lemma ResponseTextShape(segments: seq<TranscriptSegment>)
    requires segments != []
    ensures |segments| > 3 ==> ResponseText(segments) == ResponseText(segments[..3])
    ensures |segments| == 1 ==> ResponseText(segments) == FoundHeader + Bullet(segments[0]) + JumpClosing(segments[0])
    ensures |segments| >= 2 ==> ResponseText(segments) == FoundHeader + Bullets(Prefix(segments, 3)) + RecommendClosing(segments[0])
  {
    if |segments| == 1 {
      assert Bullets(segments) == Bullets([]) + Bullet(segments[0]);
    }
  }

  /** `processUserQuestion` as a function of the transcript, the question, the watched list
      and the three draws of the follow-up filter. */
  function Respond(transcript: VideoTranscript, question: string, watched: seq<int>, keep: seq<bool>): (r: VideoResponse)
    requires |keep| == 3
  {
    if IsQuestionTooVague(question) then HandleVagueQuestion(question)
    else
      var relevant := FindRelevantSegments(transcript.segments, question);
      var ranked := RankTimestamps(question, relevant, watched);
      if ranked == [] then HandleNoRelevantContent(question, transcript.segments)
      else AnsweredResponse(question, relevant, ranked, keep)
  }

  /** The answer built from the gated segments and a non-empty ranking. */
  function AnsweredResponse(question: string, relevant: seq<TranscriptSegment>, ranked: seq<RankedTimestamp>,
                            keep: seq<bool>): VideoResponse
    requires |keep| == 3 && ranked != []
  {
    VideoResponse(ResponseText(relevant), Prefix(ranked, 3), SuggestFollowUpQuestions(question, keep),
                  ranked[0].relevanceScore > 70, CalculateConfidence(question, ranked))
  }

  /** In the answered branch the response is built from the gated segments and the ranking. */
  lemma RespondAnsweredIs(transcript: VideoTranscript, question: string, watched: seq<int>, keep: seq<bool>)
    requires |keep| == 3
    requires !IsQuestionTooVague(question)
    requires RankTimestamps(question, FindRelevantSegments(transcript.segments, question), watched) != []
    ensures var relevant := FindRelevantSegments(transcript.segments, question);
      var ranked := RankTimestamps(question, relevant, watched);
      Respond(transcript, question, watched, keep) == AnsweredResponse(question, relevant, ranked, keep)
  {
  }

  /** Every ranked entry scores 40..100, and the first scores highest. */
  lemma RankedScores(question: string, segments: seq<TranscriptSegment>, watched: seq<int>)
    ensures var r := RankTimestamps(question, segments, watched);
      (forall i :: 0 <= i < |r| ==> 40 <= r[i].relevanceScore <= 100) &&
      (forall i :: 0 <= i < |r| ==> r[i].relevanceScore <= r[0].relevanceScore)
  {
    RankedEntriesFromSegments(question, segments, watched);
    RankedOrder(question, segments, watched);
  }

  /** The answered branch: one to three timestamps, the top ones of the ranking in order, led
      by the ranking's first (and so, by `RankedScores`, best) entry, and autoplay exactly
      when that entry's score is above 0.7. */
  lemma RespondAnswered(transcript: VideoTranscript, question: string, watched: seq<int>, keep: seq<bool>)
    requires |keep| == 3
    requires !IsQuestionTooVague(question)
    requires RankTimestamps(question, FindRelevantSegments(transcript.segments, question), watched) != []
    ensures var r := Respond(transcript, question, watched, keep);
      var ranked := RankTimestamps(question, FindRelevantSegments(transcript.segments, question), watched);
      1 <= |r.timestamps| <= 3 && r.timestamps <= ranked &&
      (r.shouldAutoPlay <==> r.timestamps[0].relevanceScore > 70) &&
      r.timestamps[0] == ranked[0]
  {
    RespondAnsweredIs(transcript, question, watched, keep);
  }

  /** The answered branch: confidence between 0.4 and 1, at most two follow-ups, and a
      message listing the gated segments in transcript order. */
  lemma RespondAnsweredMessage(transcript: VideoTranscript, question: string, watched: seq<int>, keep: seq<bool>)
    requires |keep| == 3
    requires !IsQuestionTooVague(question)
    requires RankTimestamps(question, FindRelevantSegments(transcript.segments, question), watched) != []
    ensures var r := Respond(transcript, question, watched, keep);
      var relevant := FindRelevantSegments(transcript.segments, question);
      0.4 <= r.confidence <= 1.0 && |r.suggestedQuestions| <= 2 && r.message == ResponseText(relevant)
  {
    var relevant := FindRelevantSegments(transcript.segments, question);
    var ranked := RankTimestamps(question, relevant, watched);
    RespondAnsweredIs(transcript, question, watched, keep);
    RankedScores(question, relevant, watched);
    ConfidenceBounds(question, ranked);
  }

  /** The two fallback branches give no timestamps and no autoplay: the vague one with
      confidence 0.2 and three fixed suggestions, the no-content one with confidence 0.1. */
  lemma RespondFallbacks(transcript: VideoTranscript, question: string, watched: seq<int>, keep: seq<bool>)
    requires |keep| == 3
    ensures var r := Respond(transcript, question, watched, keep);
      IsQuestionTooVague(question) ==> r == HandleVagueQuestion(question)
    ensures var r := Respond(transcript, question, watched, keep);
      !IsQuestionTooVague(question) &&
      RankTimestamps(question, FindRelevantSegments(transcript.segments, question), watched) == []
      ==> r == HandleNoRelevantContent(question, transcript.segments) && r.timestamps == [] &&
          !r.shouldAutoPlay && r.confidence == 0.1
  {
  }

  // ---------------------------------------------------------------- the class

  class VideoAssistant {
    const transcript: VideoTranscript
    var watchedSegments: seq<int>

    constructor(transcript: VideoTranscript)
      ensures this.transcript == transcript && watchedSegments == []
    {
      this.transcript := transcript;
      watchedSegments := [];
    }

    /** `processUserQuestion`: records the watched list, then answers. */
    method ProcessUserQuestion(question: string, watched: seq<int>, keep: seq<bool>) returns (r: VideoResponse)
      requires |keep| == 3
      modifies this
      ensures watchedSegments == watched
      ensures r == Respond(transcript, question, watched, keep)
    {
      watchedSegments := watched;
      if IsQuestionTooVague(question) {
        return HandleVagueQuestion(question);
      }
      var relevant := FindRelevantSegments(transcript.segments, question);
      var ranked := RankTimestamps(question, relevant, watchedSegments);
      if ranked == [] {
        return HandleNoRelevantContent(question, transcript.segments);
      }
      var message := GenerateResponse(relevant);
      r := VideoResponse(message, Prefix(ranked, 3), SuggestFollowUpQuestions(question, keep),
                         ranked[0].relevanceScore > 70, CalculateConfidence(question, ranked));
    }

    /** `generateResponse`, building the text by appending one bullet per listed segment. */
    method GenerateResponse(segments: seq<TranscriptSegment>) returns (response: string)
      ensures response == ResponseText(segments)
    {
      if |segments| == 0 {
        return NoInfoMessage;
      }
      var top := Prefix(segments, 3);
      var bullets := "";
      var i := 0;
      while i < |top|
        invariant 0 <= i <= |top|
        invariant bullets == Bullets(top[..i])
      {
        assert top[..i + 1][..i] == top[..i];
        bullets := bullets + Bullet(top[i]);
        i := i + 1;
      }
      assert top[..i] == top;
      var closing := if |top| == 1 then JumpClosing(top[0]) else RecommendClosing(top[0]);
      response := FoundHeader + bullets + closing;
    }

    /** `calculateRelevanceScore` against the current watched list, accumulating the score
      keyword by keyword and then topic by topic. */
    method CalculateRelevanceScore(kws: seq<string>, seg: TranscriptSegment) returns (score: int)
      ensures score == RelevanceScore(kws, seg, watchedSegments)
    {
      score := 0;
      var text := LowerStr(seg.text);
      var i := 0;
      while i < |kws|
        invariant 0 <= i <= |kws|
        invariant score == 3 * CountMentions(text, kws[..i]) + 2 * CountListMentions(seg.keywords, kws[..i])
      {
        assert kws[..i + 1][..i] == kws[..i];
        if Contains(text, kws[i]) {
          score := score + 3;
        }
        if ListMentions(seg.keywords, kws[i]) {
          score := score + 2;
        }
        i := i + 1;
      }
      assert kws[..i] == kws;
      var base := score;
      var t := 0;
      while t < |seg.topics|
        invariant 0 <= t <= |seg.topics|
        invariant score == base + 4 * TopicMentions(seg.topics[..t], kws)
      {
        var topic := LowerStr(seg.topics[t]);
        var j := 0;
        while j < |kws|
          invariant 0 <= j <= |kws|
          invariant score == base + 4 * TopicMentions(seg.topics[..t], kws) + 4 * CountMentions(topic, kws[..j])
        {
          assert kws[..j + 1][..j] == kws[..j];
          if Contains(topic, kws[j]) {
            score := score + 4;
          }
          j := j + 1;
        }
        assert kws[..j] == kws;
        assert seg.topics[..t + 1][..t] == seg.topics[..t];
        t := t + 1;
      }
      assert seg.topics[..t] == seg.topics;
      if seg.startTime as int !in watchedSegments {
        score := score + 1;
      }
      if score > 10 {
        score := 10;
      }
    }

    /** `updateWatchedSegments`. */
    method UpdateWatchedSegments(watched: seq<int>)
      modifies this
      ensures watchedSegments == watched
    {
      watchedSegments := watched;
    }
  }
}
