/**
 * The pure learning functions of lib/learning.ts: the performance scorer
 * (grade, time, flip and difficulty sub-scores), the proficiency estimator
 * and the target-difficulty mapper. Scores, proficiency and confidence are
 * exact reals.
 */
module Learning {
  import opened Numeric

  datatype ReviewSignals = ReviewSignals(grade: int, responseTimeMs: int, wasFlipped: bool, cardDifficulty: real)

  datatype PerformanceResult = PerformanceResult(
    rawScore: real,
    gradeScore: real,
    timeScore: real,
    flipScore: real,
    difficultyAdjusted: real)

  datatype ProficiencyUpdate = ProficiencyUpdate(newProficiency: real, newConfidence: real, change: real)

  datatype DifficultyLabel = Beginner | Elementary | Intermediate | Advanced | Expert

  datatype TargetDifficulty = TargetDifficulty(difficulty: int, difficultyLabel: DifficultyLabel)

  // Signal weights. The first three sum to 0.80; the difficulty adjustment is blended in at 0.20.
  const GradeWeight: real := 0.40
  const TimeWeight: real := 0.25
  const FlipWeight: real := 0.15
  const DifficultyWeight: real := 0.20

  const BaseLearningRate: real := 0.15
  const MaxConfidence: real := 0.95
  const StretchFactor: real := 0.15

  /** `1 + (proficiency - 50) / 100`: 0.5 at proficiency 0, 1.5 at proficiency 100. */
  function ProficiencyFactor(proficiency: real): real {
    1.0 + (proficiency - 50.0) / 100.0
  }

  /** `getTimeScore`: response-time windows scaled by the proficiency factor. */
  function TimeScore(timeMs: int, proficiency: real): (s: real)
    ensures s == 0.3 || s == 0.4 || s == 0.6 || s == 1.0
    ensures s == 0.4 <==> (timeMs as real) < 2000.0 * ProficiencyFactor(proficiency)
  {
    var f := ProficiencyFactor(proficiency);
    var optimalMin := 2000.0 * f;
    var optimalMax := 10000.0 * f;
    var t := timeMs as real;
    if t < optimalMin then 0.4
    else if t <= optimalMax then 1.0
    else if t <= optimalMax * 1.5 then 0.6
    else 0.3
  }

  /** `getGradeScore`: the grade table, 0.5 for any grade outside 1..5. */
  function GradeScore(grade: int): (s: real)
    ensures 0.0 <= s <= 1.0
    ensures !(1 <= grade <= 5) ==> s == 0.5
    ensures grade == 5 ==> s == 1.0
    ensures grade == 4 ==> s == 0.7
    ensures grade == 3 ==> s == 0.4
    ensures grade == 2 ==> s == 0.2
    ensures grade == 1 ==> s == 0.0
  {
    match grade
    case 5 => 1.0
    case 4 => 0.7
    case 3 => 0.4
    case 2 => 0.2
    case 1 => 0.0
    case _ => 0.5
  }

  /** `getFlipScore`: revealing the answer before grading scores less. */
  function FlipScore(wasFlipped: bool): (s: real)
    ensures wasFlipped ==> s == 0.05
    ensures !wasFlipped ==> s == 0.15
  {
    if wasFlipped then 0.05 else 0.15
  }

  /** The three-signal weighted sum. */
  function WeightedSum(gradeScore: real, timeScore: real, flipScore: real): real {
    gradeScore * GradeWeight + timeScore * TimeWeight + flipScore * FlipWeight
  }

  /** The multiplier `1 + (cardDifficulty - 5) * 0.05`. */
  function DifficultyMultiplier(cardDifficulty: real): real {
    1.0 + (cardDifficulty - 5.0) * 0.05
  }

  /** `getDifficultyAdjustment`: the weighted sum scaled by card difficulty, clamped to [0,1]. */
  function DifficultyAdjustment(rawScore: real, cardDifficulty: real): (r: real)
    ensures 0.0 <= r <= 1.0
    ensures var scaled := rawScore * DifficultyMultiplier(cardDifficulty);
            (0.0 <= scaled <= 1.0 ==> r == scaled) && (scaled < 0.0 ==> r == 0.0) && (scaled > 1.0 ==> r == 1.0)
  {
    Clamp(rawScore * DifficultyMultiplier(cardDifficulty), 0.0, 1.0)
  }

  /** `calculatePerformance`: the four sub-scores as computed, blended into `rawScore`. */
  function CalculatePerformance(signals: ReviewSignals, currentProficiency: real): (r: PerformanceResult)
    ensures r.gradeScore == GradeScore(signals.grade)
    ensures r.timeScore == TimeScore(signals.responseTimeMs, currentProficiency)
    ensures r.flipScore == FlipScore(signals.wasFlipped)
    ensures r.difficultyAdjusted == DifficultyAdjustment(WeightedSum(r.gradeScore, r.timeScore, r.flipScore), signals.cardDifficulty)
    ensures 0.0 <= r.rawScore <= 1.0
    ensures var ws := WeightedSum(r.gradeScore, r.timeScore, r.flipScore);
            Min(ws, r.difficultyAdjusted) <= r.rawScore <= Max(ws, r.difficultyAdjusted)
    ensures r.rawScore == WeightedSum(r.gradeScore, r.timeScore, r.flipScore) * (1.0 - DifficultyWeight)
                          + r.difficultyAdjusted * DifficultyWeight
  {
    var gradeScore := GradeScore(signals.grade);
    var timeScore := TimeScore(signals.responseTimeMs, currentProficiency);
    var flipScore := FlipScore(signals.wasFlipped);
    var rawScore := WeightedSum(gradeScore, timeScore, flipScore);
    var difficultyAdjusted := DifficultyAdjustment(rawScore, signals.cardDifficulty);
    var finalRaw := rawScore * (1.0 - DifficultyWeight) + difficultyAdjusted * DifficultyWeight;
    PerformanceResult(finalRaw, gradeScore, timeScore, flipScore, difficultyAdjusted)
  }

  /** `baseLearningRate * (1 - confidence * 0.5)`. */
  function LearningRate(confidence: real): real {
    BaseLearningRate * (1.0 - confidence * 0.5)
  }

  /** The confidence step: 5% of the remaining gap to 1, capped at 0.95. */
  function NextConfidence(confidence: real): (c: real)
    ensures c <= MaxConfidence
    ensures confidence <= MaxConfidence ==> confidence <= c
    ensures confidence + (1.0 - confidence) * 0.05 < MaxConfidence ==> c == confidence + (1.0 - confidence) * 0.05
    ensures confidence + (1.0 - confidence) * 0.05 >= MaxConfidence ==> c == MaxConfidence
  {
    Min(MaxConfidence, confidence + (1.0 - confidence) * 0.05)
  }

  /** `calculateProficiencyUpdate`: an error-driven step toward the observed performance. */
  function CalculateProficiencyUpdate(currentProficiency: real, currentConfidence: real, performance: PerformanceResult): (u: ProficiencyUpdate)
    ensures 0.0 <= u.newProficiency <= 100.0
    ensures u.newConfidence == NextConfidence(currentConfidence)
    ensures u.change == LearningRate(currentConfidence) * (performance.rawScore * 100.0 - currentProficiency)
    ensures 0.0 <= currentProficiency + u.change <= 100.0 ==> u.newProficiency == currentProficiency + u.change
    ensures currentProficiency + u.change < 0.0 ==> u.newProficiency == 0.0
    ensures currentProficiency + u.change > 100.0 ==> u.newProficiency == 100.0
    ensures currentConfidence < 2.0 ==>
              (u.change > 0.0 <==> performance.rawScore > currentProficiency / 100.0) &&
              (u.change < 0.0 <==> performance.rawScore < currentProficiency / 100.0)
  {
    var learningRate := LearningRate(currentConfidence);
    var expectedPerformance := currentProficiency / 100.0;
    var performanceDelta := performance.rawScore - expectedPerformance;
    var change := learningRate * performanceDelta * 100.0;
    SignOfProduct(learningRate, performanceDelta * 100.0);
    ProficiencyUpdate(Clamp(currentProficiency + change, 0.0, 100.0), NextConfidence(currentConfidence), change)
  }

  /** With a positive factor, a product has the sign of the other factor. */
  lemma SignOfProduct(a: real, b: real)
    ensures a > 0.0 ==> (a * b > 0.0 <==> b > 0.0) && (a * b < 0.0 <==> b < 0.0)
  {
  }

  /** The label band of a proficiency: <30, <50, <70, <85, else Expert. */
  function LabelFor(proficiency: real): (l: DifficultyLabel)
    ensures l == Beginner <==> proficiency < 30.0
    ensures l == Elementary <==> 30.0 <= proficiency < 50.0
    ensures l == Intermediate <==> 50.0 <= proficiency < 70.0
    ensures l == Advanced <==> 70.0 <= proficiency < 85.0
    ensures l == Expert <==> 85.0 <= proficiency
  {
    if proficiency < 30.0 then Beginner
    else if proficiency < 50.0 then Elementary
    else if proficiency < 70.0 then Intermediate
    else if proficiency < 85.0 then Advanced
    else Expert
  }

  /** The position of a label on the difficulty scale. */
  function LabelRank(l: DifficultyLabel): nat {
    match l
    case Beginner => 0
    case Elementary => 1
    case Intermediate => 2
    case Advanced => 3
    case Expert => 4
  }

  /** The label as the string sent to content generation. */
  function LabelName(l: DifficultyLabel): string {
    match l
    case Beginner => "Beginner"
    case Elementary => "Elementary"
    case Intermediate => "Intermediate"
    case Advanced => "Advanced"
    case Expert => "Expert"
  }

  /** The stretched, clamped, unrounded target `min(10, max(1, proficiency / 10 * 1.15))`. */
  function StretchedTarget(proficiency: real): (t: real)
    ensures 1.0 <= t <= 10.0
  {
    Clamp(proficiency / 10.0 * (1.0 + StretchFactor), 1.0, 10.0)
  }

  /** `calculateTargetDifficulty`: a 1..10 difficulty and an independently banded label. */
  function CalculateTargetDifficulty(proficiency: real): (r: TargetDifficulty)
    ensures 1 <= r.difficulty <= 10
    ensures r.difficultyLabel == LabelFor(proficiency)
    ensures var t := StretchedTarget(proficiency);
            r.difficulty as real - 0.5 <= t < r.difficulty as real + 0.5
  {
    TargetDifficulty(Round(StretchedTarget(proficiency)), LabelFor(proficiency))
  }

  // ---------------------------------------------------------------------
  // Properties of the scorer

  /** For a proficiency in [0,100] the four time windows are consecutive: fast, optimal, slow, very slow. */
  lemma TimeWindows(timeMs: int, proficiency: real)
    requires 0.0 <= proficiency <= 100.0
    ensures var f := ProficiencyFactor(proficiency);
            var t := timeMs as real;
            var s := TimeScore(timeMs, proficiency);
            && (s == 1.0 <==> 2000.0 * f <= t <= 10000.0 * f)
            && (s == 0.6 <==> 10000.0 * f < t <= 15000.0 * f)
            && (s == 0.3 <==> 15000.0 * f < t)
  {
  }

  /** Once past the too-fast window, a slower answer never scores higher. */
  lemma TimeScoreNonIncreasingWhenNotTooFast(t1: int, t2: int, proficiency: real)
    requires 0.0 <= proficiency <= 100.0
    requires 2000.0 * ProficiencyFactor(proficiency) <= t1 as real <= t2 as real
    ensures TimeScore(t2, proficiency) <= TimeScore(t1, proficiency)
  {
  }

  /** The time windows at baseline proficiency 50, as in the learning-engine tests. */
  lemma TimeScoreAtBaseline()
    ensures TimeScore(1000, 50.0) == 0.4
    ensures TimeScore(5000, 50.0) == 1.0
    ensures TimeScore(20000, 50.0) == 0.3
  {
  }

  /** The window grows with proficiency, so a low proficiency is judged MORE harshly at 8000 ms. */
  lemma TimeWindowShrinksAtLowProficiency()
    ensures TimeScore(8000, 20.0) == 0.6
    ensures TimeScore(8000, 80.0) == 1.0
  {
  }

  /** Over the graded range 1..5 a better grade never scores lower. */
  lemma GradeScoreMonotone(g1: int, g2: int)
    requires 1 <= g1 <= g2 <= 5
    ensures GradeScore(g1) <= GradeScore(g2)
  {
  }

  /** For a non-negative raw sum, a harder card never gets a lower adjusted score. */
  lemma DifficultyAdjustmentMonotoneInDifficulty(rawScore: real, d1: real, d2: real)
    requires rawScore >= 0.0 && d1 <= d2
    ensures DifficultyAdjustment(rawScore, d1) <= DifficultyAdjustment(rawScore, d2)
  {
    ProductMonotone(rawScore, DifficultyMultiplier(d1), DifficultyMultiplier(d2));
    ClampMonotone(rawScore * DifficultyMultiplier(d1), rawScore * DifficultyMultiplier(d2), 0.0, 1.0);
  }

  /** For a non-negative multiplier (difficulty at least -15), a larger raw sum never gets a lower adjusted score. */
  lemma DifficultyAdjustmentMonotoneInRaw(r1: real, r2: real, cardDifficulty: real)
    requires r1 <= r2 && DifficultyMultiplier(cardDifficulty) >= 0.0
    ensures DifficultyAdjustment(r1, cardDifficulty) <= DifficultyAdjustment(r2, cardDifficulty)
  {
    ProductMonotone(DifficultyMultiplier(cardDifficulty), r1, r2);
    assert r1 * DifficultyMultiplier(cardDifficulty) <= r2 * DifficultyMultiplier(cardDifficulty);
    ClampMonotone(r1 * DifficultyMultiplier(cardDifficulty), r2 * DifficultyMultiplier(cardDifficulty), 0.0, 1.0);
  }

  lemma ProductMonotone(a: real, x: real, y: real)
    requires a >= 0.0 && x <= y
    ensures a * x <= a * y
  {
    assert a * y - a * x == a * (y - x);
  }

  /** The weighted sum lies in [0.0825, 0.6725]: the final score is at most 0.738. */
  lemma RawScoreUpperBound(signals: ReviewSignals, currentProficiency: real)
    ensures var r := CalculatePerformance(signals, currentProficiency);
            0.0825 <= WeightedSum(r.gradeScore, r.timeScore, r.flipScore) <= 0.6725 &&
            0.066 <= r.rawScore <= 0.738
  {
  }

  /** With the other signals fixed, a better grade (1..5) never lowers the performance score. */
  lemma PerformanceMonotoneInGrade(signals: ReviewSignals, currentProficiency: real, betterGrade: int)
    requires 1 <= signals.grade <= betterGrade <= 5
    requires DifficultyMultiplier(signals.cardDifficulty) >= 0.0
    ensures CalculatePerformance(signals, currentProficiency).rawScore
            <= CalculatePerformance(signals.(grade := betterGrade), currentProficiency).rawScore
  {
    var r1 := CalculatePerformance(signals, currentProficiency);
    var r2 := CalculatePerformance(signals.(grade := betterGrade), currentProficiency);
    GradeScoreMonotone(signals.grade, betterGrade);
    var ws1 := WeightedSum(r1.gradeScore, r1.timeScore, r1.flipScore);
    var ws2 := WeightedSum(r2.gradeScore, r2.timeScore, r2.flipScore);
    assert ws1 <= ws2;
    DifficultyAdjustmentMonotoneInRaw(ws1, ws2, signals.cardDifficulty);
  }

  /** A grade-5 review in the optimal window: difficulty 2 < 5 < 8 strictly raises the adjusted score. */
  lemma HarderCardScoresHigher()
    ensures var easy := CalculatePerformance(ReviewSignals(5, 5000, false, 2.0), 50.0);
            var mid := CalculatePerformance(ReviewSignals(5, 5000, false, 5.0), 50.0);
            var hard := CalculatePerformance(ReviewSignals(5, 5000, false, 8.0), 50.0);
            easy.difficultyAdjusted < mid.difficultyAdjusted < hard.difficultyAdjusted
  {
  }

  /** A perfect review (grade 5, 5000 ms, unflipped, difficulty 7) scores about 0.686, not above 0.8. */
  lemma PerfectReviewScore()
    ensures var r := CalculatePerformance(ReviewSignals(5, 5000, false, 7.0), 50.0);
            0.68 < r.rawScore < 0.69
  {
    var r := CalculatePerformance(ReviewSignals(5, 5000, false, 7.0), 50.0);
    assert r.timeScore == 1.0;
    assert WeightedSum(r.gradeScore, r.timeScore, r.flipScore) == 0.6725;
    assert r.difficultyAdjusted == 0.6725 * 1.1;
  }

  /** A poor review (grade 1, 25000 ms, flipped, difficulty 3) scores below 0.3. */
  lemma PoorReviewScore()
    ensures CalculatePerformance(ReviewSignals(1, 25000, true, 3.0), 50.0).rawScore < 0.3
  {
    var r := CalculatePerformance(ReviewSignals(1, 25000, true, 3.0), 50.0);
    assert r.timeScore == 0.3;
    assert WeightedSum(r.gradeScore, r.timeScore, r.flipScore) == 0.0825;
  }

  /** A mixed review (grade 3, 12000 ms, flipped, difficulty 5) scores in (0.2, 0.6). */
  lemma MixedReviewScore()
    ensures var r := CalculatePerformance(ReviewSignals(3, 12000, true, 5.0), 50.0);
            0.2 < r.rawScore < 0.6
  {
    var r := CalculatePerformance(ReviewSignals(3, 12000, true, 5.0), 50.0);
    assert r.gradeScore == 0.4 && r.flipScore == 0.05;
    assert r.timeScore == 0.6;
    assert WeightedSum(r.gradeScore, r.timeScore, r.flipScore) == 0.3175;
  }

  // ---------------------------------------------------------------------
  // Properties of the proficiency estimator

  /**
   * In the stated domains the update moves proficiency toward the observed
   * performance (as a percentage) without overshooting it, and no clamp fires.
   */
  lemma ProficiencyMovesTowardPerformance(p: real, c: real, performance: PerformanceResult)
    requires 0.0 <= p <= 100.0 && 0.0 <= c <= MaxConfidence
    requires 0.0 <= performance.rawScore <= 1.0
    ensures var u := CalculateProficiencyUpdate(p, c, performance);
            var target := performance.rawScore * 100.0;
            && u.newProficiency == p + u.change
            && (p <= target ==> p <= u.newProficiency <= target)
            && (target <= p ==> target <= u.newProficiency <= p)
  {
    var u := CalculateProficiencyUpdate(p, c, performance);
    var lr := LearningRate(c);
    var target := performance.rawScore * 100.0;
    assert 0.0 < lr <= 0.15;
    assert u.change == lr * (target - p);
    if p <= target {
      StepUp(p, lr, target);
    } else {
      StepDown(p, lr, target);
    }
  }

  /** A step of `lr` (at most 1) of the way up from `p` to `target` lands between them. */
  lemma StepUp(p: real, lr: real, target: real)
    requires 0.0 <= lr <= 1.0 && p <= target
    ensures p <= p + lr * (target - p) <= target
  {
    ScaleBound(lr, target - p, 1.0);
    assert 1.0 * (target - p) == target - p;
  }

  /** A step of `lr` (at most 1) of the way down from `p` to `target` lands between them. */
  lemma StepDown(p: real, lr: real, target: real)
    requires 0.0 <= lr <= 1.0 && target <= p
    ensures target <= p + lr * (target - p) <= p
  {
    ScaleBound(lr, p - target, 1.0);
    assert 1.0 * (p - target) == p - target;
    assert lr * (target - p) == -(lr * (p - target));
  }

  /** A factor in [0, bound] scales a non-negative number into [0, bound * x]. */
  lemma ScaleBound(a: real, x: real, bound: real)
    requires 0.0 <= a <= bound && x >= 0.0
    ensures 0.0 <= a * x <= bound * x
  {
    assert bound * x - a * x == (bound - a) * x;
  }

  /** In the stated domains one update moves proficiency by at most 15 points. */
  lemma ChangeBounded(p: real, c: real, performance: PerformanceResult)
    requires 0.0 <= p <= 100.0 && 0.0 <= c <= MaxConfidence
    requires 0.0 <= performance.rawScore <= 1.0
    ensures -15.0 <= CalculateProficiencyUpdate(p, c, performance).change <= 15.0
  {
    var u := CalculateProficiencyUpdate(p, c, performance);
    var lr := LearningRate(c);
    var d := performance.rawScore * 100.0 - p;
    assert 0.0 < lr <= 0.15;
    assert -100.0 <= d <= 100.0;
    assert u.change == lr * d;
    RateTimesGapBound(lr, d);
  }

  /**
   * The learning rate falls as confidence rises: for the same review, a more
   * confident estimate moves in the same direction but never further.
   */
  lemma ConfidenceSlowsChange(p: real, c1: real, c2: real, performance: PerformanceResult)
    requires 0.0 <= c1 <= c2 <= MaxConfidence
    ensures var ch1 := CalculateProficiencyUpdate(p, c1, performance).change;
            var ch2 := CalculateProficiencyUpdate(p, c2, performance).change;
            && (ch1 >= 0.0 ==> 0.0 <= ch2 <= ch1)
            && (ch1 <= 0.0 ==> ch1 <= ch2 <= 0.0)
  {
    var d := performance.rawScore * 100.0 - p;
    var r1, r2 := LearningRate(c1), LearningRate(c2);
    RateFallsWithConfidence(c1, c2);
    var ch1, ch2 := r1 * d, r2 * d;
    SlowerRateSameDirection(r1, r2, d, ch1, ch2);
    ChangeFormula(p, c1, performance, ch1);
    ChangeFormula(p, c2, performance, ch2);
  }

  /** The step of one update is the learning rate times the gap in points. */
  lemma ChangeFormula(p: real, c: real, performance: PerformanceResult, ch: real)
    requires ch == LearningRate(c) * (performance.rawScore * 100.0 - p)
    ensures CalculateProficiencyUpdate(p, c, performance).change == ch
  {
  }

  lemma RateFallsWithConfidence(c1: real, c2: real)
    requires 0.0 <= c1 <= c2 <= MaxConfidence
    ensures 0.0 <= LearningRate(c2) <= LearningRate(c1)
  {
  }

  /** A smaller non-negative rate times the same gap keeps the sign and shrinks the step. */
  lemma SlowerRateSameDirection(r1: real, r2: real, d: real, ch1: real, ch2: real)
    requires 0.0 <= r2 <= r1 && ch1 == r1 * d && ch2 == r2 * d
    ensures ch1 >= 0.0 ==> 0.0 <= ch2 <= ch1
    ensures ch1 <= 0.0 ==> ch1 <= ch2 <= 0.0
  {
    if d >= 0.0 {
      ScaleBound(r2, d, r1);
    } else {
      ScaleBound(r2, -d, r1);
      assert r2 * -d == -(r2 * d) && r1 * -d == -(r1 * d);
    }
  }

  /** A rate of at most 0.15 times a gap of at most 100 points is at most 15 points either way. */
  lemma RateTimesGapBound(lr: real, d: real)
    requires 0.0 <= lr <= 0.15 && -100.0 <= d <= 100.0
    ensures -15.0 <= lr * d <= 15.0
  {
    if d >= 0.0 {
      ScaleBound(lr, d, 0.15);
    } else {
      ScaleBound(lr, -d, 0.15);
      assert lr * -d == -(lr * d);
    }
  }

  /** A performance exactly as expected leaves proficiency where it was. */
  lemma ExpectedPerformanceIsFixedPoint(p: real, c: real, performance: PerformanceResult)
    requires 0.0 <= p <= 100.0
    requires performance.rawScore == p / 100.0
    ensures CalculateProficiencyUpdate(p, c, performance).newProficiency == p
  {
  }

  /** The confidence after `n` updates. */
  function ConfidenceAfter(c: real, n: nat): real
    decreases n
  {
    if n == 0 then c else ConfidenceAfter(NextConfidence(c), n - 1)
  }

  /** Confidence only rises across any number of reviews and never passes 0.95. */
  lemma {:induction false} ConfidenceAfterBounds(c: real, n: nat)
    requires c <= MaxConfidence
    ensures c <= ConfidenceAfter(c, n) <= MaxConfidence
    decreases n
  {
    if n > 0 {
      ConfidenceAfterBounds(NextConfidence(c), n - 1);
    }
  }

  /** Below the cap each update closes 5% of the gap to 1. */
  lemma ConfidenceGapShrinks(c: real)
    requires c <= 0.9473
    ensures 1.0 - NextConfidence(c) == 0.95 * (1.0 - c)
  {
  }

  // ---------------------------------------------------------------------
  // Properties of the target-difficulty mapper

  /** A higher proficiency never gets an easier difficulty or a lower label. */
  lemma TargetDifficultyMonotone(p1: real, p2: real)
    requires p1 <= p2
    ensures CalculateTargetDifficulty(p1).difficulty <= CalculateTargetDifficulty(p2).difficulty
    ensures LabelRank(CalculateTargetDifficulty(p1).difficultyLabel) <= LabelRank(CalculateTargetDifficulty(p2).difficultyLabel)
  {
    RoundMonotone(StretchedTarget(p1), StretchedTarget(p2));
  }

  /** The target-difficulty examples: 25 gives 3, 50 gives 6, 80 gives 9. */
  lemma TargetDifficultyExamples()
    ensures CalculateTargetDifficulty(25.0) == TargetDifficulty(3, Beginner)
    ensures CalculateTargetDifficulty(50.0) == TargetDifficulty(6, Intermediate)
    ensures CalculateTargetDifficulty(80.0) == TargetDifficulty(9, Advanced)
  {
  }
}
