/**
 * actions/placementTest.ts: validation of generated placement questions and
 * the scoring of a finished placement quiz.
 */
module PlacementTest {
  import opened Wrappers
  import opened Numeric
  import opened Text

  datatype PlacementLevel = Beginner | Intermediate | Advanced

  function LevelRank(l: PlacementLevel): nat {
    match l
    case Beginner => 0
    case Intermediate => 1
    case Advanced => 2
  }

  datatype PlacementQuestion = PlacementQuestion(question: string, options: seq<string>, answer: string, difficulty: string)

  datatype Response = Response(questionIndex: int, userAnswer: string, correct: bool, timeMs: int)

  const FastMs: int := 10000
  const MaxPerResponse: real := 1.5
  const MaxAvoided: nat := 5

  // ---------------------------------------------------------------- generation

  /** The questions named in the avoid clause: the first five already seen. */
  function AvoidList(seen: seq<string>): (r: seq<string>)
    ensures |r| == MinInt(MaxAvoided, |seen|)
    ensures r == seen[..|r|]
  {
    seen[..MinInt(MaxAvoided, |seen|)]
  }

  /** The avoid clause appended to the prompt; empty when nothing has been seen. */
  function AvoidClause(seen: seq<string>): (r: string)
    ensures |seen| == 0 <==> r == ""
    ensures |seen| > 0 ==> r == "\nDO NOT repeat these questions: " + Join(AvoidList(seen), "; ")
  {
    if |seen| > 0 then "\nDO NOT repeat these questions: " + Join(AvoidList(seen), "; ") else ""
  }

  /** An option that is just one of the letters A-D. */
  predicate IsBareLetter(opt: string) {
    |opt| == 1 && 'A' <= opt[0] <= 'D'
  }

  /** The filter's test: the answer is an option, there are at least two options, and none is a bare letter. */
  predicate IsValidQuestion(q: PlacementQuestion) {
    q.answer in q.options && |q.options| >= 2 && forall k :: 0 <= k < |q.options| ==> !IsBareLetter(q.options[k])
  }

  /** `questions.filter(...)`: the valid questions, in their original order. */
  function FilterValid(qs: seq<PlacementQuestion>): (r: seq<PlacementQuestion>)
    ensures forall q :: q in r <==> q in qs && IsValidQuestion(q)
    ensures forall k :: 0 <= k < |r| ==> IsValidQuestion(r[k])
    ensures |r| <= |qs|
  {
    if |qs| == 0 then []
    else
      var rest := FilterValid(qs[1..]);
      assert qs == [qs[0]] + qs[1..];
      if IsValidQuestion(qs[0]) then [qs[0]] + rest else rest
  }

  /** Filtering distributes over concatenation, so the relative order of the kept questions is preserved. */
  lemma {:induction false} FilterValidAppend(a: seq<PlacementQuestion>, b: seq<PlacementQuestion>)
    ensures FilterValid(a + b) == FilterValid(a) + FilterValid(b)
    decreases |a|
  {
    if |a| > 0 {
      assert (a + b)[1..] == a[1..] + b;
      FilterValidAppend(a[1..], b);
    } else {
      assert a + b == b;
    }
  }

  /** Filtering twice keeps the same questions. */
  lemma {:induction false} FilterValidIdempotent(qs: seq<PlacementQuestion>)
    ensures FilterValid(FilterValid(qs)) == FilterValid(qs)
    decreases |qs|
  {
    if |qs| > 0 {
      FilterValidIdempotent(qs[1..]);
    }
  }

  /** A list of valid questions passes the filter unchanged. */
  lemma {:induction false} FilterValidKeepsValid(qs: seq<PlacementQuestion>)
    requires forall k :: 0 <= k < |qs| ==> IsValidQuestion(qs[k])
    ensures FilterValid(qs) == qs
    decreases |qs|
  {
    if |qs| > 0 {
      assert IsValidQuestion(qs[0]);
      FilterValidKeepsValid(qs[1..]);
      assert [qs[0]] + qs[1..] == qs;
    }
  }

  const KeyError: string := "XAI_API_KEY not defined"

  /**
   * `generatePlacementQuiz` with its collaborators as parameters: the model reply
   * (`None` when the request fails) and the JSON parser. A missing key is
   * thrown; every later failure yields no questions.
   */
  function GeneratePlacementQuiz(apiKeyDefined: bool, reply: Option<string>,
                                 parse: string -> Option<seq<PlacementQuestion>>): (r: Result<seq<PlacementQuestion>, string>)
    ensures !apiKeyDefined <==> r == Failure(KeyError)
    ensures apiKeyDefined ==> r.Success? && forall k :: 0 <= k < |r.value| ==> IsValidQuestion(r.value[k])
    ensures apiKeyDefined && (reply.None? || parse(StripFences(reply.value)).None?) ==> r == Success([])
    ensures apiKeyDefined && reply.Some? && parse(StripFences(reply.value)).Some? ==>
              r == Success(FilterValid(parse(StripFences(reply.value)).value))
  {
    if !apiKeyDefined then Failure(KeyError)
    else if reply.None? then Success([])
    else
      var parsed := parse(StripFences(reply.value));
      if parsed.None? then Success([]) else Success(FilterValid(parsed.value))
  }

  /** When the model's questions are all well formed, the quiz is exactly the parsed reply, in its order. */
  lemma QuizIsParsedReply(reply: string, parse: string -> Option<seq<PlacementQuestion>>)
    requires parse(StripFences(reply)).Some?
    requires forall k :: 0 <= k < |parse(StripFences(reply)).value| ==> IsValidQuestion(parse(StripFences(reply)).value[k])
    ensures GeneratePlacementQuiz(true, Some(reply), parse) == Success(parse(StripFences(reply)).value)
  {
    FilterValidKeepsValid(parse(StripFences(reply)).value);
  }

  // ---------------------------------------------------------------- evaluation

  /** Points for one response: 1 when correct, plus 0.5 when also answered in under ten seconds. */
  function ResponseScore(r: Response): (s: real)
    ensures 0.0 <= s <= MaxPerResponse
    ensures s == 0.0 <==> !r.correct
    ensures s == MaxPerResponse <==> r.correct && r.timeMs < FastMs
  {
    if !r.correct then 0.0 else if r.timeMs < FastMs then 1.5 else 1.0
  }

  /** The accumulated score of a sequence of responses, in answer order. */
  function TotalScore(rs: seq<Response>): real
    decreases |rs|
  {
    if |rs| == 0 then 0.0 else TotalScore(rs[..|rs| - 1]) + ResponseScore(rs[|rs| - 1])
  }

  /** The score is between zero and 1.5 per response. */
  lemma {:induction false} TotalScoreBounds(rs: seq<Response>)
    ensures 0.0 <= TotalScore(rs) <= MaxPerResponse * |rs| as real
    decreases |rs|
  {
    if |rs| > 0 {
      TotalScoreBounds(rs[..|rs| - 1]);
    }
  }

  /** All answers wrong scores zero; all answers correct and fast scores the maximum. */
  lemma {:induction false} TotalScoreExtremes(rs: seq<Response>)
    ensures (forall k :: 0 <= k < |rs| ==> !rs[k].correct) ==> TotalScore(rs) == 0.0
    ensures (forall k :: 0 <= k < |rs| ==> rs[k].correct && rs[k].timeMs < FastMs) ==>
              TotalScore(rs) == MaxPerResponse * |rs| as real
    decreases |rs|
  {
    if |rs| > 0 {
      TotalScoreExtremes(rs[..|rs| - 1]);
    }
  }

  /** The score as a percentage of the maximum. */
  function Percentage(rs: seq<Response>): (p: real)
    requires |rs| > 0
    ensures 0.0 <= p <= 100.0
  {
    TotalScoreBounds(rs);
    PercentageBound(TotalScore(rs), MaxPerResponse * |rs| as real);
    TotalScore(rs) / (MaxPerResponse * |rs| as real) * 100.0
  }

  lemma PercentageBound(score: real, max: real)
    requires 0.0 < max && 0.0 <= score <= max
    ensures 0.0 <= score / max * 100.0 <= 100.0
  {
    assert score / max <= 1.0;
  }

  /** The level and confidence for a percentage. */
  function Band(pct: real): (r: (PlacementLevel, real))
    ensures r.0 == Advanced <==> pct >= 70.0
    ensures r.0 == Intermediate <==> 40.0 <= pct < 70.0
    ensures r.0 == Beginner <==> pct < 40.0
    ensures r.0 == Advanced ==> r.1 == Min(90.0, pct)
    ensures r.0 == Intermediate ==> r.1 == Min(85.0, 50.0 + pct / 2.0)
    ensures r.0 == Beginner ==> r.1 == Min(80.0, 30.0 + pct)
  {
    if pct >= 70.0 then (Advanced, Min(90.0, pct))
    else if pct >= 40.0 then (Intermediate, Min(85.0, 50.0 + pct / 2.0))
    else (Beginner, Min(80.0, 30.0 + pct))
  }

  /** The confidence of each level lies in its own range, and a higher percentage never gives a lower level. */
  lemma BandConfidenceRanges(pct: real)
    requires 0.0 <= pct <= 100.0
    ensures Band(pct).0 == Advanced ==> 70.0 <= Band(pct).1 <= 90.0
    ensures Band(pct).0 == Intermediate ==> 70.0 <= Band(pct).1 <= 85.0
    ensures Band(pct).0 == Beginner ==> 30.0 <= Band(pct).1 < 70.0
  {
  }

  lemma BandMonotone(a: real, b: real)
    requires a <= b
    ensures LevelRank(Band(a).0) <= LevelRank(Band(b).0)
  {
  }

  /** The quiz asks for more questions below 65 confidence, which happens exactly below 35 percent. */
  lemma LowConfidenceIffBelow35(pct: real)
    requires 0.0 <= pct
    ensures Band(pct).1 < 65.0 <==> pct < 35.0
  {
  }

  /** `evaluatePlacement`: accumulate the score response by response, then band the percentage. */
  method EvaluatePlacement(responses: seq<Response>) returns (level: PlacementLevel, confidence: real)
    requires |responses| > 0
    ensures (level, confidence) == Band(Percentage(responses))
  {
    var score := 0.0;
    var i := 0;
    while i < |responses|
      invariant 0 <= i <= |responses|
      invariant score == TotalScore(responses[..i])
    {
      assert responses[..i + 1][..i] == responses[..i];
      if responses[i].correct {
        score := score + 1.0;
        if responses[i].timeMs < FastMs {
          score := score + 0.5;
        }
      }
      i := i + 1;
    }
    assert responses[..i] == responses;
    var maxScore := |responses| as real * MaxPerResponse;
    var percentage := score / maxScore * 100.0;
    if percentage >= 70.0 {
      level := Advanced;
      confidence := Min(90.0, percentage);
    } else if percentage >= 40.0 {
      level := Intermediate;
      confidence := Min(85.0, 50.0 + percentage / 2.0);
    } else {
      level := Beginner;
      confidence := Min(80.0, 30.0 + percentage);
    }
  }

  /** Three correct, fast answers place the user at Advanced with confidence 90; three wrong ones at Beginner with 30. */
  lemma PlacementExamples(fast: Response, wrong: Response)
    requires fast.correct && fast.timeMs < FastMs && !wrong.correct
    ensures Band(Percentage([fast, fast, fast])) == (Advanced, 90.0)
    ensures Band(Percentage([wrong, wrong, wrong])) == (Beginner, 30.0)
  {
    TotalScoreExtremes([fast, fast, fast]);
    TotalScoreExtremes([wrong, wrong, wrong]);
  }
}
