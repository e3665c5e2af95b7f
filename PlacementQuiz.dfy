/**
 * components/PlacementQuiz.tsx: the adaptive placement quiz. Questions are
 * answered in order; after the last one the answers so far are evaluated,
 * and a low confidence fetches more (unseen) questions until nine answers
 * have been given.
 */
module PlacementQuiz {
  import opened PlacementTest

  const MinConfidence: real := 65.0
  const MaxQuestions: nat := 9

  datatype Phase = Loading | Asking | Skipped | Finished(level: PlacementLevel, confidence: real)

  /** The question texts, in order. */
  function Texts(qs: seq<PlacementQuestion>): (r: seq<string>)
    ensures |r| == |qs|
    ensures forall i :: 0 <= i < |r| ==> r[i] == qs[i].question
  {
    seq(|qs|, i requires 0 <= i < |qs| => qs[i].question)
  }

  /** The texts of two lists, one after the other. */
  lemma TextsAppend(a: seq<PlacementQuestion>, b: seq<PlacementQuestion>)
    ensures Texts(a + b) == Texts(a) + Texts(b)
  {
    assert forall i :: 0 <= i < |a + b| ==> Texts(a + b)[i] == (Texts(a) + Texts(b))[i];
  }

  /** Appending keeps every earlier question in its place. */
  lemma AppendKeepsPrefix(a: seq<PlacementQuestion>, b: seq<PlacementQuestion>)
    ensures forall i :: 0 <= i < |a| ==> (a + b)[i] == a[i]
  {
  }

  /** The fetched questions whose text has not been seen, in their fetched order. */
  function Unseen(batch: seq<PlacementQuestion>, seen: seq<string>): (r: seq<PlacementQuestion>)
    ensures forall q :: q in r <==> q in batch && q.question !in seen
    ensures |r| <= |batch|
    ensures forall q :: multiset(r)[q] == if q.question !in seen then multiset(batch)[q] else 0
  {
    if |batch| == 0 then []
    else
      var rest := Unseen(batch[1..], seen);
      UnseenStep(batch, rest, seen);
      if batch[0].question !in seen then [batch[0]] + rest else rest
  }

  /** The filter's recursive step: keep the head exactly when its text was not seen. */
  lemma UnseenStep(batch: seq<PlacementQuestion>, rest: seq<PlacementQuestion>, seen: seq<string>)
    requires |batch| > 0
    requires forall q :: q in rest <==> q in batch[1..] && q.question !in seen
    requires |rest| <= |batch[1..]|
    requires forall q :: multiset(rest)[q] == if q.question !in seen then multiset(batch[1..])[q] else 0
    ensures var r := if batch[0].question !in seen then [batch[0]] + rest else rest;
            && (forall q :: q in r <==> q in batch && q.question !in seen)
            && |r| <= |batch|
            && (forall q :: multiset(r)[q] == if q.question !in seen then multiset(batch)[q] else 0)
  {
    assert batch == [batch[0]] + batch[1..];
    assert multiset(batch) == multiset{batch[0]} + multiset(batch[1..]);
  }

  /** The filter distributes over concatenation, so the fetched order is kept. */
  lemma {:induction false} UnseenAppend(a: seq<PlacementQuestion>, b: seq<PlacementQuestion>, seen: seq<string>)
    ensures Unseen(a + b, seen) == Unseen(a, seen) + Unseen(b, seen)
    decreases |a|
  {
    if |a| == 0 {
      assert a + b == b;
    } else {
      assert (a + b)[1..] == a[1..] + b;
      UnseenAppend(a[1..], b, seen);
    }
  }

  /** Whether the evaluation asks for more questions. */
  predicate NeedsMore(confidence: real, answered: nat) {
    confidence < MinConfidence && answered < MaxQuestions
  }

  /** More questions are fetched exactly when fewer than nine answers score below 35 percent. */
  lemma NeedsMoreIffBelow35(responses: seq<Response>)
    requires 0 < |responses|
    ensures NeedsMore(Band(Percentage(responses)).1, |responses|) <==>
              Percentage(responses) < 35.0 && |responses| < MaxQuestions
  {
    LowConfidenceIffBelow35(Percentage(responses));
  }

  class Quiz {
    var questions: seq<PlacementQuestion>
    var seen: seq<string>
    var currentIndex: nat
    var responses: seq<Response>
    var phase: Phase

    /**
     * `seen` lists the texts of the questions; while asking there is one
     * response per question before the current one, and each response is
     * marked correct exactly when its answer is its question's answer.
     */
    predicate Valid()
      reads this
    {
      && seen == Texts(questions)
      && currentIndex <= |questions|
      && |responses| <= |questions|
      && (phase == Asking || phase == Loading ==> |responses| == currentIndex)
      && (forall i :: 0 <= i < |responses| ==>
            responses[i].questionIndex == i && (responses[i].correct <==> responses[i].userAnswer == questions[i].answer))
    }

    /** A question is on screen. */
    predicate HasCurrent()
      reads this
    {
      phase == Asking && currentIndex < |questions|
    }

    constructor ()
      ensures Valid() && phase == Loading && questions == [] && responses == []
    {
      questions, seen, currentIndex, responses, phase := [], [], 0, [], Loading;
    }

    /** The mount effect: an empty first batch skips the quiz. */
    method LoadInitial(batch: seq<PlacementQuestion>)
      requires Valid() && phase == Loading && questions == []
      modifies this
      ensures Valid()
      ensures |batch| == 0 ==> phase == Skipped && questions == []
      ensures |batch| > 0 ==> phase == Asking && questions == batch && currentIndex == 0 && HasCurrent()
    {
      if |batch| > 0 {
        questions := batch;
        seen := Texts(batch);
        phase := Asking;
      } else {
        phase := Skipped;
      }
    }

    /** `fetchMoreQuestions`: append the unseen part of a fetched batch. */
    method FetchMore(batch: seq<PlacementQuestion>)
      requires Valid()
      modifies this
      ensures Valid()
      ensures questions == old(questions) + Unseen(batch, old(seen))
      ensures seen == old(seen) + Texts(Unseen(batch, old(seen)))
      ensures currentIndex == old(currentIndex) && responses == old(responses) && phase == old(phase)
    {
      if |batch| > 0 {
        var newOnes := Unseen(batch, seen);
        TextsAppend(questions, newOnes);
        AppendKeepsPrefix(questions, newOnes);
        questions := questions + newOnes;
        seen := seen + Texts(newOnes);
      } else {
        assert Unseen(batch, seen) == [];
        assert questions + [] == questions;
        assert seen + Texts([]) == seen;
      }
    }

    /**
     * `handleAnswer`: record the response; advance if a question remains;
     * otherwise evaluate and either fetch more (`fetched` is what the
     * generator returns) or finish with the recommended level.
     */
    method HandleAnswer(answer: string, timeMs: int, fetched: seq<PlacementQuestion>)
      requires Valid() && HasCurrent()
      modifies this
      ensures Valid()
      ensures responses == old(responses) + [Response(old(currentIndex), answer, answer == old(questions[currentIndex]).answer, timeMs)]
      ensures old(currentIndex) + 1 < old(|questions|) ==>
                currentIndex == old(currentIndex) + 1 && questions == old(questions) && phase == Asking
      ensures old(currentIndex) + 1 == old(|questions|) ==>
                var band := Band(Percentage(responses));
                if NeedsMore(band.1, |responses|) then
                  && phase == Asking && currentIndex == old(currentIndex) + 1
                  && questions == old(questions) + Unseen(fetched, old(seen))
                  && (HasCurrent() <==> |Unseen(fetched, old(seen))| > 0)
                else
                  phase == Finished(band.0, band.1) && questions == old(questions) && currentIndex == old(currentIndex)
    {
      var currentQ := questions[currentIndex];
      var correct := answer == currentQ.answer;
      var newResponse := Response(currentIndex, answer, correct, timeMs);
      responses := responses + [newResponse];
      var nextIndex := currentIndex + 1;
      if nextIndex < |questions| {
        currentIndex := nextIndex;
      } else {
        var level, confidence := EvaluatePlacement(responses);
        if confidence < MinConfidence && |responses| < MaxQuestions {
          currentIndex := nextIndex;
          FetchMore(fetched);
        } else {
          phase := Finished(level, confidence);
        }
      }
    }
  }

  /** Fetched questions never repeat a question already seen. */
  lemma FetchedAreUnseen(batch: seq<PlacementQuestion>, seen: seq<string>)
    ensures forall q :: q in Unseen(batch, seen) ==> q.question !in seen
    ensures Texts(Unseen(batch, seen)) == Texts(Unseen(Unseen(batch, seen), seen))
  {
    UnseenIdempotent(batch, seen);
  }

  lemma {:induction false} UnseenIdempotent(batch: seq<PlacementQuestion>, seen: seq<string>)
    ensures Unseen(Unseen(batch, seen), seen) == Unseen(batch, seen)
    decreases |batch|
  {
    if |batch| > 0 {
      UnseenIdempotent(batch[1..], seen);
    }
  }
}
