/**
 * actions/submitReview.ts: one review of one card. It reschedules the card,
 * updates the pet, feeds the proficiency estimator when review signals are
 * present, and pays the coin reward and streak.
 */
module SubmitReview {
  import opened Wrappers
  import opened Numeric
  import opened Profiles
  import Srs
  import PetLogic
  import opened Learning
  import opened LearningEngine

  /** A row of the cards table, as far as a review reads or writes it. */
  class Card {
    var interval: int
    var easeFactor: real
    var nextReview: int
    /** The difficulty level stored when the card was generated; `None` for older cards. */
    var difficulty: Option<int>

    constructor (interval: int, easeFactor: real, nextReview: int, difficulty: Option<int>)
      ensures this.interval == interval && this.easeFactor == easeFactor
      ensures this.nextReview == nextReview && this.difficulty == difficulty
    {
      this.interval := interval;
      this.easeFactor := easeFactor;
      this.nextReview := nextReview;
      this.difficulty := difficulty;
    }
  }

  /** The client's review signals; `cardDifficulty` is optional. */
  datatype ClientSignals = ClientSignals(responseTimeMs: int, wasFlipped: bool, cardDifficulty: Option<real>)

  datatype ReviewOutcome = ReviewOutcome(cardUpdate: Srs.SrsResult, petUpdate: PetLogic.PetUpdate,
                                         proficiencyUpdate: Option<(real, real)>)

  const CoinReward: int := 10
  const BoostThreshold: real := 70.0
  const BoostFactor: real := 1.05
  const MaxBoostedEase: real := 3.0
  const DefaultDifficulty: real := 5.0

  /** `topic || deck.topic || 'General'`: the first non-empty of the argument and the deck's topic. */
  function CardTopic(topic: string, deckTopic: Option<string>): (t: string)
    ensures topic != "" ==> t == topic
    ensures topic == "" && deckTopic.Some? && deckTopic.value != "" ==> t == deckTopic.value
    ensures topic == "" && (deckTopic.None? || deckTopic.value == "") ==> t == "General"
    ensures t != ""
  {
    if topic != "" then topic
    else if deckTopic.Some? && deckTopic.value != "" then deckTopic.value
    else "General"
  }

  /** The difficulty used for scoring: the signal's, else the card's, else 5. */
  function ScoringDifficulty(signal: Option<real>, card: Option<int>): (d: real)
    ensures signal.Some? ==> d == signal.value
    ensures signal.None? && card.Some? ==> d == card.value as real
    ensures signal.None? && card.None? ==> d == DefaultDifficulty
  {
    if signal.Some? then signal.value else if card.Some? then card.value as real else DefaultDifficulty
  }

  /** The difficulty recorded in the signal log: the signal's, else 5 (the card's is not consulted). */
  function RecordedDifficulty(signal: Option<real>): (d: real)
    ensures signal.Some? ==> d == signal.value
    ensures signal.None? ==> d == DefaultDifficulty
  {
    signal.GetOr(DefaultDifficulty)
  }

  /** The performance a review with signals is scored at, given the proficiency row read before the update. */
  function ReviewPerformance(grade: int, s: ClientSignals, cardDifficulty: Option<int>, row: Option<ProficiencyRow>): (r: PerformanceResult)
    ensures 0.0 <= r.rawScore <= 1.0
    ensures r.gradeScore == GradeScore(grade)
    ensures r.flipScore == FlipScore(s.wasFlipped)
    ensures r.timeScore == TimeScore(s.responseTimeMs, if row.Some? then row.value.score else DefaultScore)
    ensures r.difficultyAdjusted ==
              DifficultyAdjustment(WeightedSum(r.gradeScore, r.timeScore, r.flipScore), ScoringDifficulty(s.cardDifficulty, cardDifficulty))
    ensures var ws := WeightedSum(r.gradeScore, r.timeScore, r.flipScore);
            Min(ws, r.difficultyAdjusted) <= r.rawScore <= Max(ws, r.difficultyAdjusted)
    ensures r.rawScore == WeightedSum(r.gradeScore, r.timeScore, r.flipScore) * (1.0 - DifficultyWeight)
                          + r.difficultyAdjusted * DifficultyWeight
  {
    var current := if row.Some? then row.value.score else DefaultScore;
    CalculatePerformance(ReviewSignals(grade, s.responseTimeMs, s.wasFlipped, ScoringDifficulty(s.cardDifficulty, cardDifficulty)), current)
  }

  /** The high-proficiency ease boost: 5% more, capped at 3.0. */
  function BoostedEase(ease: real, newProficiency: real): (e: real)
    ensures newProficiency <= BoostThreshold ==> e == ease
    ensures newProficiency > BoostThreshold ==> e <= MaxBoostedEase
    ensures newProficiency > BoostThreshold && 0.0 <= ease ==> e == Min(MaxBoostedEase, ease * BoostFactor)
  {
    if newProficiency > BoostThreshold then Min(MaxBoostedEase, ease * BoostFactor) else ease
  }

  /** The boost raises an ease of at most 3.0 (never above 3.0) and pulls a larger ease down to 3.0. */
  lemma BoostDirection(ease: real, newProficiency: real)
    requires newProficiency > BoostThreshold && 0.0 < ease
    ensures ease <= MaxBoostedEase ==> ease <= BoostedEase(ease, newProficiency) <= MaxBoostedEase
    ensures ease > MaxBoostedEase ==> BoostedEase(ease, newProficiency) == MaxBoostedEase < ease
  {
  }

  /** An ease of 3.1 (six perfect reviews from 2.5) is lowered to 3.0 by the boost. */
  lemma BoostLowersHighEase()
    ensures Srs.CalculateReview(10, 3.0, 5, 0).easeFactor == 3.1
    ensures BoostedEase(3.1, 80.0) == 3.0
  {
    Srs.SuccessEase(10, 3.0, 5, 0);
  }

  /** The streak after studying on day `today`. */
  function NextStreak(streak: int, lastStudyDay: Option<int>, today: int): (s: int)
    ensures lastStudyDay == Some(today) ==> s == streak
    ensures lastStudyDay == Some(today - 1) ==> s == streak + 1
    ensures lastStudyDay != Some(today) && lastStudyDay != Some(today - 1) ==> s == 1
  {
    if lastStudyDay == Some(today) then streak
    else if lastStudyDay == Some(today - 1) then streak + 1
    else 1
  }

  /** Studying on `n` consecutive days after a day with streak `s` gives streak `s + n`. */
  function StreakAfterDays(streak: int, day: int, n: nat): int
    decreases n
  {
    if n == 0 then streak else StreakAfterDays(NextStreak(streak, Some(day), day + 1), day + 1, n - 1)
  }

  lemma {:induction false} ConsecutiveDaysAddUp(streak: int, day: int, n: nat)
    ensures StreakAfterDays(streak, day, n) == streak + n
    decreases n
  {
    if n > 0 {
      ConsecutiveDaysAddUp(streak + 1, day + 1, n - 1);
    }
  }

  /** A missed day resets the streak to 1, and a second review on the same day changes nothing. */
  lemma StreakResetAndRepeat(streak: int, day: int)
    ensures NextStreak(streak, Some(day - 2), day) == 1
    ensures NextStreak(streak, None, day) == 1
    ensures NextStreak(NextStreak(streak, Some(day - 1), day), Some(day), day) == streak + 1
  {
  }

  /**
   * The learning-engine step of a review with signals: score the review
   * against the proficiency read before the update, update the row, log the
   * signal, and boost the ease when the new proficiency is above 70.
   */
  method ApplySignals(table: ProficiencyTable, log: ReviewSignalLog, userId: string, cardId: string,
                      cardTopic: string, grade: int, s: ClientSignals, cardDifficulty: Option<int>,
                      ease: real, insertFails: bool)
    returns (update: (real, real), newEase: real)
    modifies table, log
    ensures var key := (userId, cardTopic);
            var before := if key in old(table.rows) then Some(old(table.rows)[key]) else None;
            var perf := ReviewPerformance(grade, s, cardDifficulty, before);
            var current := if before.Some? then before.value.score else DefaultScore;
            && (if before.None? && insertFails then
                  update == (DefaultScore, DefaultConfidence) && table.rows == old(table.rows)
                else
                  var written := ReviewedRow(before.GetOr(DefaultRow), perf, s.responseTimeMs);
                  table.rows == old(table.rows)[key := written] && update == (written.score, written.confidence))
            && newEase == BoostedEase(ease, update.0)
            && log.entries == old(log.entries) +
                 [SignalRecord(userId, cardId, grade, s.responseTimeMs, s.wasFlipped,
                               RecordedDifficulty(s.cardDifficulty), current)]
  {
    var currentProf := table.Get(userId, cardTopic);
    var currentProficiency := if currentProf.Some? then currentProf.value.score else DefaultScore;
    var performance := CalculatePerformance(
      ReviewSignals(grade, s.responseTimeMs, s.wasFlipped, ScoringDifficulty(s.cardDifficulty, cardDifficulty)),
      currentProficiency);
    var newProficiency, newConfidence := table.UpdateProficiency(userId, cardTopic, performance, s.responseTimeMs, insertFails);
    update := (newProficiency, newConfidence);
    log.RecordReviewSignal(userId, cardId,
      ReviewSignals(grade, s.responseTimeMs, s.wasFlipped, RecordedDifficulty(s.cardDifficulty)), currentProficiency);
    newEase := ease;
    if newProficiency > BoostThreshold {
      newEase := Min(MaxBoostedEase, ease * BoostFactor);
    }
  }

  /** The gamification step: ten coins, the streak rule, and today as the last study day. */
  method PayReviewReward(profile: Profile, today: int)
    modifies profile
    ensures profile.coins == old(profile.coins) + CoinReward
    ensures profile.currentStreak == NextStreak(old(profile.currentStreak), old(profile.lastStudyDay), today)
    ensures profile.lastStudyDay == Some(today)
    ensures profile.xp == old(profile.xp) && profile.health == old(profile.health) && profile.stage == old(profile.stage)
  {
    var newStreak := profile.currentStreak;
    if profile.lastStudyDay != Some(today) {
      newStreak := if profile.lastStudyDay == Some(today - 1) then newStreak + 1 else 1;
    }
    var newCoins := profile.coins + CoinReward;
    profile.currentStreak, profile.lastStudyDay, profile.coins := newStreak, Some(today), newCoins;
  }

  /**
   * `submitReview`. The clock is `today` (a day number); whether the
   * proficiency insert fails is `insertFails`. A missing card or profile is
   * thrown (`Failure`) before anything is written.
   */
  method SubmitReview(card: Card?, deckTopic: Option<string>, profile: Profile?, table: ProficiencyTable,
                      log: ReviewSignalLog, userId: string, cardId: string, grade: int, topic: string,
                      signals: Option<ClientSignals>, today: int, insertFails: bool)
    returns (r: Result<ReviewOutcome, string>)
    modifies card, profile, table, log
    ensures card == null ==> r == Failure("Card not found") && unchanged(table, log) && (profile != null ==> unchanged(profile))
    ensures card != null && profile == null ==> r == Failure("Profile not found") && unchanged(card, table, log)
    ensures card != null && profile != null ==>
              var srs := Srs.CalculateReview(old(card.interval), old(card.easeFactor), grade, today);
              var pet := PetLogic.Transition(PetLogic.PetState(old(profile.xp), old(profile.health), old(profile.stage)), grade);
              && r.Success?
              && r.value.petUpdate == pet
              && r.value.cardUpdate == srs.(easeFactor := card.easeFactor)
              && card.interval == srs.interval && card.nextReview == srs.nextReview
              && card.difficulty == old(card.difficulty)
              && profile.xp == pet.newState.xp && profile.health == pet.newState.health
              && profile.stage == pet.newState.stage
              && profile.coins == old(profile.coins) + CoinReward
              && profile.currentStreak == NextStreak(old(profile.currentStreak), old(profile.lastStudyDay), today)
              && profile.lastStudyDay == Some(today)
              && (signals.None? ==>
                    && r.value.proficiencyUpdate.None? && card.easeFactor == srs.easeFactor
                    && table.rows == old(table.rows) && log.entries == old(log.entries))
              && (signals.Some? ==>
                    var s := signals.value;
                    var key := (userId, CardTopic(topic, deckTopic));
                    var before := if key in old(table.rows) then Some(old(table.rows)[key]) else None;
                    var perf := ReviewPerformance(grade, s, old(card.difficulty), before);
                    var current := if before.Some? then before.value.score else DefaultScore;
                    && r.value.proficiencyUpdate.Some?
                    && (if before.None? && insertFails then
                          r.value.proficiencyUpdate.value == (DefaultScore, DefaultConfidence) && table.rows == old(table.rows)
                        else
                          var written := ReviewedRow(before.GetOr(DefaultRow), perf, s.responseTimeMs);
                          && table.rows == old(table.rows)[key := written]
                          && r.value.proficiencyUpdate.value == (written.score, written.confidence))
                    && card.easeFactor == BoostedEase(srs.easeFactor, r.value.proficiencyUpdate.value.0)
                    && log.entries == old(log.entries) +
                         [SignalRecord(userId, cardId, grade, s.responseTimeMs, s.wasFlipped,
                                       RecordedDifficulty(s.cardDifficulty), current)])
  {
    if card == null {
      return Failure("Card not found");
    }
    var cardTopic := CardTopic(topic, deckTopic);
    var srsResult := Srs.CalculateReview(card.interval, card.easeFactor, grade, today);

    var petResult := PetLogic.UpdatePetState(profile, grade);
    if petResult.Failure? {
      return Failure(petResult.error);
    }

    var proficiencyUpdate: Option<(real, real)> := None;
    if signals.Some? {
      var update, newEase := ApplySignals(table, log, userId, cardId, cardTopic, grade, signals.value,
                                          card.difficulty, srsResult.easeFactor, insertFails);
      proficiencyUpdate := Some(update);
      srsResult := srsResult.(easeFactor := newEase);
    }

    PayReviewReward(profile, today);

    card.interval, card.easeFactor, card.nextReview := srsResult.interval, srsResult.easeFactor, srsResult.nextReview;

    r := Success(ReviewOutcome(srsResult, petResult.value, proficiencyUpdate));
  }
}
