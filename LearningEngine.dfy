/**
 * actions/learningEngine.ts: the topic_proficiency table and the record
 * updates applied to it — get-or-create on review, the moving average of
 * response times, the target difficulty read, and placement seeding.
 */
module LearningEngine {
  import opened Wrappers
  import opened Numeric
  import opened Learning
  import PlacementTest

  /** A topic_proficiency row; `avgResponseTimeMs` is `None` for a SQL null. */
  datatype ProficiencyRow = ProficiencyRow(score: real, confidence: real, totalReviews: int, avgResponseTimeMs: Option<int>)

  /** Rows are keyed by (user id, topic). */
  type Key = (string, string)

  const DefaultScore: real := 50.0
  const DefaultConfidence: real := 0.3
  const AverageDecay: real := 0.9
  const PlacementConfidenceCap: real := 0.6

  /** The row created on a first review. */
  const DefaultRow: ProficiencyRow := ProficiencyRow(DefaultScore, DefaultConfidence, 0, None)

  /** The rolling average: 90% old, 10% new, rounded; an absent or zero average is replaced by the new time. */
  function NextAverage(avg: Option<int>, responseTimeMs: int): (r: int)
    ensures avg.None? || avg.value == 0 ==> r == responseTimeMs
    ensures avg.Some? ==> MinInt(avg.value, responseTimeMs) <= r <= MaxInt(avg.value, responseTimeMs)
    ensures avg.Some? && avg.value != 0 ==>
              var blended := avg.value as real * AverageDecay + responseTimeMs as real * (1.0 - AverageDecay);
              r as real - 0.5 <= blended < r as real + 0.5
  {
    if avg.Some? && avg.value != 0 then
      var blended := avg.value as real * AverageDecay + responseTimeMs as real * (1.0 - AverageDecay);
      RoundBetween(blended, MinInt(avg.value, responseTimeMs), MaxInt(avg.value, responseTimeMs));
      Round(blended)
    else responseTimeMs
  }

  lemma RoundBetween(x: real, lo: int, hi: int)
    requires lo as real <= x <= hi as real
    ensures lo <= Round(x) <= hi
  {
  }

  /**
   * The average closes 10% of its distance to the new time per review, up to
   * the half-millisecond of rounding, and never overshoots the new time.
   */
  lemma AverageApproachesNewTime(avg: int, t: int)
    requires avg != 0
    ensures avg >= t ==> t <= NextAverage(Some(avg), t) && (NextAverage(Some(avg), t) - t) as real <= AverageDecay * (avg - t) as real + 0.5
    ensures avg <= t ==> NextAverage(Some(avg), t) <= t && (t - NextAverage(Some(avg), t)) as real <= AverageDecay * (t - avg) as real + 0.5
  {
    var r := NextAverage(Some(avg), t);
    var blended := avg as real * AverageDecay + t as real * (1.0 - AverageDecay);
    assert blended - t as real == AverageDecay * (avg - t) as real;
  }

  /** A steady response time is a fixed point of the average. */
  lemma SteadyTimeKeepsAverage(t: int)
    ensures NextAverage(Some(t), t) == t
  {
  }

  /** The row written after one review. */
  function ReviewedRow(row: ProficiencyRow, performance: PerformanceResult, responseTimeMs: int): (r: ProficiencyRow)
    ensures r.totalReviews == row.totalReviews + 1
    ensures 0.0 <= r.score <= 100.0
    ensures r.confidence <= MaxConfidence
    ensures row.confidence <= MaxConfidence ==> row.confidence <= r.confidence
    ensures r.avgResponseTimeMs.Some?
    ensures r.avgResponseTimeMs == Some(NextAverage(row.avgResponseTimeMs, responseTimeMs))
  {
    var u := CalculateProficiencyUpdate(row.score, row.confidence, performance);
    ProficiencyRow(u.newProficiency, u.newConfidence, row.totalReviews + 1,
                   Some(NextAverage(row.avgResponseTimeMs, responseTimeMs)))
  }

  /** The stored score and confidence are exactly the estimator's outputs. */
  lemma ReviewedRowFollowsEstimator(row: ProficiencyRow, performance: PerformanceResult, responseTimeMs: int)
    ensures var u := CalculateProficiencyUpdate(row.score, row.confidence, performance);
            var r := ReviewedRow(row, performance, responseTimeMs);
            r.score == u.newProficiency && r.confidence == u.newConfidence
  {
  }

  /** A first review scored at 0.5 leaves a fresh row at 50 and raises its confidence to 0.335. */
  lemma FirstReviewAtExpectedPerformance(performance: PerformanceResult, t: int)
    requires performance.rawScore == 0.5
    ensures ReviewedRow(DefaultRow, performance, t) == ProficiencyRow(50.0, 0.335, 1, Some(t))
  {
    ExpectedPerformanceIsFixedPoint(DefaultScore, DefaultConfidence, performance);
  }

  /** The placement level's seed score. */
  function SeedScore(level: PlacementTest.PlacementLevel): (s: real)
    ensures level == PlacementTest.Beginner ==> s == 25.0
    ensures level == PlacementTest.Intermediate ==> s == 50.0
    ensures level == PlacementTest.Advanced ==> s == 75.0
  {
    match level
    case Beginner => 25.0
    case Intermediate => 50.0
    case Advanced => 75.0
  }

  /** The row an upsert of a placement result leaves; columns it does not set keep their old values. */
  function SeededRow(existing: Option<ProficiencyRow>, level: PlacementTest.PlacementLevel, placementConfidence: real): (r: ProficiencyRow)
    ensures r.score == SeedScore(level)
    ensures r.confidence == Min(PlacementConfidenceCap, placementConfidence / 100.0)
    ensures r.confidence <= PlacementConfidenceCap
    ensures r.totalReviews == 0
    ensures existing.Some? ==> r.avgResponseTimeMs == existing.value.avgResponseTimeMs
    ensures existing.None? ==> r.avgResponseTimeMs.None?
  {
    ProficiencyRow(SeedScore(level), Min(PlacementConfidenceCap, placementConfidence / 100.0), 0,
                   if existing.Some? then existing.value.avgResponseTimeMs else None)
  }

  /** The target difficulty that `getTargetDifficulty` returns, with the proficiency it used. */
  datatype EngineTarget = EngineTarget(difficulty: int, difficultyLabel: DifficultyLabel, proficiency: real)

  /** `getTargetDifficulty` on a row lookup: its own copy of the stretch-and-band rule, defaulting to 50. */
  function TargetFromRow(row: Option<ProficiencyRow>): (r: EngineTarget)
    ensures row.None? ==> r.proficiency == DefaultScore
    ensures row.Some? ==> r.proficiency == row.value.score
    ensures 1 <= r.difficulty <= 10
  {
    var p := if row.Some? then row.value.score else DefaultScore;
    var target := Min(10.0, Max(1.0, p / 10.0 * (1.0 + 0.15)));
    var labelOf :=
      if p < 30.0 then Beginner
      else if p < 50.0 then Elementary
      else if p < 70.0 then Intermediate
      else if p < 85.0 then Advanced
      else Expert;
    EngineTarget(Round(target), labelOf, p)
  }

  /** The server's copy agrees with the library's `calculateTargetDifficulty` on every proficiency. */
  lemma TargetAgreesWithLibrary(row: ProficiencyRow)
    ensures var t := TargetFromRow(Some(row));
            var lib := CalculateTargetDifficulty(row.score);
            t.difficulty == lib.difficulty && t.difficultyLabel == lib.difficultyLabel
  {
    var p := row.score;
    assert Min(10.0, Max(1.0, p / 10.0 * (1.0 + 0.15))) == StretchedTarget(p);
  }

  /** With no row the target is difficulty 6, Intermediate. */
  lemma MissingRowTarget()
    ensures TargetFromRow(None) == EngineTarget(6, Intermediate, 50.0)
  {
  }

  /** Seeding from a placement result and then asking for a target gives 3/Beginner, 6/Intermediate or 9/Advanced. */
  lemma SeededTargets(existing: Option<ProficiencyRow>, c: real)
    ensures TargetFromRow(Some(SeededRow(existing, PlacementTest.Beginner, c))) == EngineTarget(3, Beginner, 25.0)
    ensures TargetFromRow(Some(SeededRow(existing, PlacementTest.Intermediate, c))) == EngineTarget(6, Intermediate, 50.0)
    ensures TargetFromRow(Some(SeededRow(existing, PlacementTest.Advanced, c))) == EngineTarget(9, Advanced, 75.0)
  {
  }

  /** A placement confidence from the quiz (30 to 90) seeds a confidence between 0.3 and 0.6. */
  lemma SeededConfidenceRange(existing: Option<ProficiencyRow>, level: PlacementTest.PlacementLevel, c: real)
    requires 30.0 <= c <= 90.0
    ensures 0.3 <= SeededRow(existing, level, c).confidence <= PlacementConfidenceCap
  {
  }

  /** The topic_proficiency table. */
  class ProficiencyTable {
    var rows: map<Key, ProficiencyRow>

    constructor ()
      ensures rows == map[]
    {
      rows := map[];
    }

    /** `getProficiency`: the row for a user and topic, if any. */
    function Get(userId: string, topic: string): (r: Option<ProficiencyRow>)
      reads this
      ensures r.Some? <==> (userId, topic) in rows
      ensures r.Some? ==> r.value == rows[(userId, topic)]
    {
      if (userId, topic) in rows then Some(rows[(userId, topic)]) else None
    }

    /** `getTargetDifficulty`. */
    function TargetDifficultyOf(userId: string, topic: string): (r: EngineTarget)
      reads this
      ensures (userId, topic) !in rows ==> r == EngineTarget(6, Intermediate, 50.0)
      ensures (userId, topic) in rows ==>
                r.difficulty == CalculateTargetDifficulty(rows[(userId, topic)].score).difficulty &&
                r.difficultyLabel == LabelFor(rows[(userId, topic)].score) &&
                r.proficiency == rows[(userId, topic)].score
    {
      var row := Get(userId, topic);
      if row.Some? then
        TargetAgreesWithLibrary(row.value);
        TargetFromRow(row)
      else
        MissingRowTarget();
        TargetFromRow(row)
    }

    /**
     * `updateProficiency`: get or create the row, apply the estimator, bump
     * the review count and the average, and return what was written. When
     * the row is missing and its insert fails, the defaults are returned and
     * nothing is stored.
     */
    method UpdateProficiency(userId: string, topic: string, performance: PerformanceResult,
                             responseTimeMs: int, insertFails: bool)
      returns (newProficiency: real, newConfidence: real)
      modifies this
      ensures var key := (userId, topic);
              if key !in old(rows) && insertFails then
                rows == old(rows) && newProficiency == DefaultScore && newConfidence == DefaultConfidence
              else
                var before := if key in old(rows) then old(rows)[key] else DefaultRow;
                && rows == old(rows)[key := ReviewedRow(before, performance, responseTimeMs)]
                && newProficiency == rows[key].score && newConfidence == rows[key].confidence
    {
      var key := (userId, topic);
      var row: ProficiencyRow;
      if key in rows {
        row := rows[key];
      } else {
        if insertFails {
          return DefaultScore, DefaultConfidence;
        }
        row := DefaultRow;
        rows := rows[key := row];
      }
      var update := CalculateProficiencyUpdate(row.score, row.confidence, performance);
      var newAvg := NextAverage(row.avgResponseTimeMs, responseTimeMs);
      rows := rows[key := ProficiencyRow(update.newProficiency, update.newConfidence, row.totalReviews + 1, Some(newAvg))];
      return update.newProficiency, update.newConfidence;
    }

    /** `initializeProficiency`: upsert the seed row for a placement result. */
    method InitializeProficiency(userId: string, topic: string, level: PlacementTest.PlacementLevel, placementConfidence: real)
      modifies this
      ensures var key := (userId, topic);
              rows == old(rows)[key := SeededRow(if key in old(rows) then Some(old(rows)[key]) else None, level, placementConfidence)]
    {
      var key := (userId, topic);
      var initialProficiency := SeedScore(level);
      var initialConfidence := Min(PlacementConfidenceCap, placementConfidence / 100.0);
      var avg := if key in rows then rows[key].avgResponseTimeMs else None;
      rows := rows[key := ProficiencyRow(initialProficiency, initialConfidence, 0, avg)];
    }
  }

  /** A review_signals row, kept for analysis. */
  datatype SignalRecord = SignalRecord(userId: string, cardId: string, grade: int, responseTimeMs: int,
                                       wasFlipped: bool, cardDifficulty: real, proficiencyAtTime: real)

  /** The review_signals table: an append-only log. */
  class ReviewSignalLog {
    var entries: seq<SignalRecord>

    constructor ()
      ensures entries == []
    {
      entries := [];
    }

    /** `recordReviewSignal`: append one record. */
    method RecordReviewSignal(userId: string, cardId: string, signals: ReviewSignals, proficiencyAtTime: real)
      modifies this
      ensures entries == old(entries) + [SignalRecord(userId, cardId, signals.grade, signals.responseTimeMs,
                                                      signals.wasFlipped, signals.cardDifficulty, proficiencyAtTime)]
    {
      entries := entries + [SignalRecord(userId, cardId, signals.grade, signals.responseTimeMs,
                                         signals.wasFlipped, signals.cardDifficulty, proficiencyAtTime)];
    }
  }
}
