/**
 * The SuperMemo-2 variant of lib/srs.ts: a card's previous interval (days),
 * ease factor and the learner's grade give the next interval, the next ease
 * factor and the day of the next review. The clock is the `today` parameter,
 * a day number.
 */
module Srs {
  import opened Numeric

  datatype SrsResult = SrsResult(interval: int, easeFactor: real, nextReview: int)

  /** The ease factor never goes below this. */
  const MinEase: real := 1.3

  /** Grades at or above this are a successful recall. */
  const PassGrade: int := 3

  /** SM-2's ease change for a successful recall. */
  function EaseDelta(grade: int): (d: real)
    ensures grade == 5 ==> d == 0.1
    ensures grade == 4 ==> d == 0.0
    ensures grade == 3 ==> d == -0.14
  {
    var q := (5 - grade) as real;
    0.1 - q * (0.08 + q * 0.02)
  }

  /** `calculateReview`: interval branches, 1.3 floor, ease rounded to 2 decimals on output only. */
  function CalculateReview(currentInterval: int, currentEase: real, grade: int, today: int): (r: SrsResult)
    ensures r.easeFactor >= MinEase
    ensures IsCents(r.easeFactor)
    ensures r.nextReview == today + r.interval
    ensures grade < PassGrade ==> r.interval == 1
    ensures grade >= PassGrade && currentInterval == 0 ==> r.interval == 1
    ensures grade >= PassGrade && currentInterval == 1 ==> r.interval == 6
    ensures grade >= PassGrade && currentInterval != 0 && currentInterval != 1 ==>
              r.interval as real - 0.5 <= currentInterval as real * currentEase < r.interval as real + 0.5
  {
    var newInterval :=
      if grade >= PassGrade then
        (if currentInterval == 0 then 1
         else if currentInterval == 1 then 6
         else Round(currentInterval as real * currentEase))
      else 1;
    var newEase := if grade >= PassGrade then currentEase + EaseDelta(grade) else currentEase;
    var floored := if newEase < MinEase then MinEase else newEase;
    Round2Monotone(MinEase, floored);
    Round2OfCents(MinEase);
    SrsResult(newInterval, Round2(floored), today + newInterval)
  }

  /** The ease factor the computation uses, before the output rounding. */
  function UnroundedEase(currentEase: real, grade: int): real {
    var e := if grade >= PassGrade then currentEase + EaseDelta(grade) else currentEase;
    if e < MinEase then MinEase else e
  }

  /** Only the returned ease is rounded: it is the unrounded new ease to within half a hundredth. */
  lemma EaseRoundedOnlyOnOutput(currentInterval: int, currentEase: real, grade: int, today: int)
    ensures var r := CalculateReview(currentInterval, currentEase, grade, today);
            UnroundedEase(currentEase, grade) - 0.005 < r.easeFactor <= UnroundedEase(currentEase, grade) + 0.005
  {
  }

  /** A failed recall resets the interval to one day and keeps a (stored, two-decimal) ease factor. */
  lemma FailureKeepsEase(currentInterval: int, currentEase: real, grade: int, today: int)
    requires grade < PassGrade
    requires currentEase >= MinEase && IsCents(currentEase)
    ensures CalculateReview(currentInterval, currentEase, grade, today).interval == 1
    ensures CalculateReview(currentInterval, currentEase, grade, today).easeFactor == currentEase
  {
    Round2OfCents(currentEase);
  }

  /** On a successful recall the ease moves by +0.1, 0 or -0.14 for grades 5, 4, 3, then is floored and rounded. */
  lemma SuccessEase(currentInterval: int, currentEase: real, grade: int, today: int)
    requires 3 <= grade <= 5
    ensures var e := CalculateReview(currentInterval, currentEase, grade, today).easeFactor;
            var target := currentEase + (if grade == 5 then 0.1 else if grade == 4 then 0.0 else -0.14);
            e == Round2(if target < MinEase then MinEase else target)
  {
  }

  /** The interval is at least one day on every path, for a stored (non-negative) interval and a floored ease. */
  lemma IntervalAtLeastOne(currentInterval: int, currentEase: real, grade: int, today: int)
    requires currentInterval >= 0 && currentEase >= MinEase
    ensures CalculateReview(currentInterval, currentEase, grade, today).interval >= 1
  {
    var r := CalculateReview(currentInterval, currentEase, grade, today);
    if grade >= PassGrade && currentInterval >= 2 {
      assert currentInterval as real * currentEase >= 2.0 * MinEase;
    }
  }

  /** For an interval of two days or more, a larger ease never gives a shorter interval. */
  lemma IntervalMonotoneInEase(currentInterval: int, ease1: real, ease2: real, grade: int, today: int)
    requires currentInterval >= 2 && grade >= PassGrade
    requires ease1 <= ease2
    ensures CalculateReview(currentInterval, ease1, grade, today).interval
            <= CalculateReview(currentInterval, ease2, grade, today).interval
  {
    assert currentInterval as real * ease1 <= currentInterval as real * ease2;
    RoundMonotone(currentInterval as real * ease1, currentInterval as real * ease2);
  }

  /** The growth is not strict: rounding maps ease 1.3 and 1.4 to the same 3-day interval. */
  lemma IntervalNotStrictInEase()
    ensures CalculateReview(2, 1.3, 5, 0).interval == CalculateReview(2, 1.4, 5, 0).interval == 3
  {
  }

  /** The documented examples of lib/srs.test.ts. */
  lemma TestVectors(today: int)
    ensures CalculateReview(0, 2.5, 4, today).interval == 1
    ensures CalculateReview(0, 2.5, 4, today).easeFactor == 2.5
    ensures CalculateReview(0, 2.5, 5, today).interval == 1
    ensures CalculateReview(0, 2.5, 5, today).easeFactor > 2.5
    ensures CalculateReview(1, 2.6, 5, today).interval == 6
    ensures CalculateReview(6, 2.6, 5, today).interval == 16
    ensures CalculateReview(10, 2.8, 2, today).interval == 1
    ensures CalculateReview(10, 2.8, 2, today).easeFactor == 2.8
    ensures CalculateReview(10, 1.35, 3, today).easeFactor == 1.3
  {
    Round2OfCents(2.5);
    Round2OfCents(2.8);
    Round2OfCents(MinEase);
  }
}
