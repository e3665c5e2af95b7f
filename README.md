# memogotchi adaptive-learning core in Dafny

memogotchi is a flashcard app with a virtual pet. This project models its adaptive-learning core and proves properties of that model. The core covers:

- the SuperMemo-2 scheduler (`lib/srs.ts`);
- the performance scorer, proficiency estimator and target-difficulty mapper (`lib/learning.ts`);
- the record updates inside the server actions: proficiency rows, the review step, placement scoring, pet evolution, feeding, the boss fight and deck generation;
- the decision logic of four UI components: the placement quiz, the boss-fight modal, the swipeable card stack and the pet display.

Each source file has one module:

| module | source file | form |
|---|---|---|
| `Srs` | lib/srs.ts | pure function and lemmas |
| `Learning` | lib/learning.ts | pure functions and lemmas |
| `LearningEngine` | actions/learningEngine.ts | `ProficiencyTable` class (the topic_proficiency rows) plus pure row functions |
| `SubmitReview` | actions/submitReview.ts | method over `Card`, `Profile`, the proficiency table and the signal log |
| `PlacementTest` | actions/placementTest.ts | validation filter (pure); `EvaluatePlacement` is a loop proved against `TotalScore` |
| `PetLogic` | actions/petLogic.ts | `UpdatePetState` method on a `Profile`, specified by `Transition` |
| `FeedPet` | actions/feedPet.ts | `FeedPet` method on a `Profile`, specified by `Feed` |
| `BossFight` | actions/bossFight.ts | leech selection (filter, sort, take) and `SubmitBossResult` method |
| `GenerateDeck` | actions/generateDeck.ts | pure mappings and the outcome of a generation |
| `PlacementQuiz` | components/PlacementQuiz.tsx | `Quiz` class |
| `BossFightModal` | components/BossFightModal.tsx | `Fight` class over a `Run` automaton |
| `SwipeableCardStack` | components/SwipeableCardStack.tsx | drag classifier plus `CardStack` class |
| `PetDisplay` | components/PetDisplay.tsx | pure arithmetic |

Shared modules:
- `Wrappers`: `Option` and `Result`.
- `Numeric`: JavaScript `Math.round`, `Math.ceil`, `toFixed(2)`, min, max and clamp over exact reals.
- `Text`: `join`, `split`, global `replace` and `trim`.
- `Profiles`: the profiles row as a class.

The model abstracts the outside world as follows:
- The clock becomes a parameter: `today` is an integer day number and response times are integer milliseconds.
- A missing database row is `null`, or a key missing from the table.
- The AI endpoint, the JSON parser and database write failures become parameters of the functions that use them, such as `reply`, `parse`, `insertFails` and `queryFails`.
- A thrown error is `Failure(message)`.
- Scores, ease, proficiency and confidence are exact reals.

Where the documentation or the tests disagree with the code, the model follows the code:
- The description of the scheduler says the next interval grows with the ease factor. Because of `Math.round` the growth is only non-strict: `Srs.IntervalMonotoneInEase` proves the non-strict version and `Srs.IntervalNotStrictInEase` gives a tie.
- The test at __tests__/learningEngine.test.ts:165 expects a perfect review to score above 0.8. The weights cap the score at 0.738 (`Learning.RawScoreUpperBound`), and that review scores about 0.686 (`Learning.PerfectReviewScore`).
- The test at __tests__/learningEngine.test.ts:108 expects low proficiency to be judged more leniently on time. The code's window shrinks as proficiency falls (`Learning.TimeWindowShrinksAtLowProficiency`).

Behaviour of the code that the proofs make visible:
- The ease "boost" in `submitReview` (actions/submitReview.ts:90-92) is `min(3.0, ease * 1.05)`. It lowers any ease above 3.0. A perfect review at ease 3.0 gives 3.1, which the boost takes back to 3.0 (`SubmitReview.BoostLowersHighEase`).
- The prefetch effect (components/SwipeableCardStack.tsx:62-70) depends on `prefetching`. When the request resolves while the same card is still showing, it fires a second next-deck request (`SwipeableCardStack.PrefetchRefiresOnSameCard`).
- The pet logic's `child` stage has no sprite in the pet display (`PetDisplay.ChildStageHasNoSprite`).
- The card stack's `handleFlip` (components/SwipeableCardStack.tsx:56-59) is never attached. The card's `onFlip` (line 197) only toggles the face, so every review is sent with `wasFlipped` false and the flip score is always 0.15 (`SwipeableCardStack.CardStack.Flip`, `SwipeableCardStack.CardStack.CompleteSwipe`).
- If the placement quiz's extra fetch adds no unseen question, the index moves past the last question (`PlacementQuiz.Quiz.HandleAnswer`). The question screen then reads `currentQ.difficulty` of an undefined question (components/PlacementQuiz.tsx:155, 186) and throws; rendering is not part of this model.

## Model

| member | source | states |
|---|---|---|
| Numeric.Round | lib/srs.ts:41 | `Math.round` as round-half-up: the result is within half a unit of its argument |
| Numeric.Round2 | lib/srs.ts:62 | `parseFloat(x.toFixed(2))`: a two-decimal value within 0.005 of `x` |
| Numeric.Clamp | lib/learning.ts:73 | the result lies in [lo, hi], equals x inside the range and the nearer bound outside it |
| Numeric.ClampMonotone | lib/learning.ts:73 | clamping preserves order |
| Srs.EaseDelta | lib/srs.ts:44 | the success ease delta is +0.1 at grade 5, 0 at grade 4 and −0.14 at grade 3 |
| Srs.CalculateReview | lib/srs.ts:27-65 | ease ≥ 1.3 and two-decimal; next review = today + interval; interval 1 on failure; 1 from interval 0 and 6 from interval 1 on success; otherwise round(interval × ease) |
| Srs.EaseRoundedOnlyOnOutput | lib/srs.ts:44-62 | the returned ease is the unrounded floored ease to within 0.005, so only the output is rounded |
| Srs.FailureKeepsEase | lib/srs.ts:45-50 | grade < 3 gives interval 1 and returns a stored (≥ 1.3, two-decimal) ease unchanged |
| Srs.SuccessEase | lib/srs.ts:44-55 | on success the ease is round2(max(1.3, ease + delta)), with delta +0.1, 0 or −0.14 |
| Srs.IntervalAtLeastOne | lib/srs.ts:35-50 | the new interval is ≥ 1 on every path for a stored interval and ease |
| Srs.IntervalMonotoneInEase | lib/srs.ts:40-41 | for interval ≥ 2 a larger ease never gives a shorter interval |
| Srs.IntervalNotStrictInEase | lib/srs.ts:41 | eases 1.3 and 1.4 both give 3 days from interval 2, so the growth is not strict |
| Srs.TestVectors | lib/srs.test.ts:5-40 | the six scheduler test cases: (0,2.5,4)→1 with ease 2.5, (0,2.5,5)→1 with ease above 2.5, (1,2.6,5)→6, (6,2.6,5)→16, (10,2.8,2)→1 with ease 2.8, (10,1.35,3) ease 1.3 |
| Learning.TimeScore | lib/learning.ts:32-52 | the time score is one of 0.4, 1.0, 0.6, 0.3 per window, and it is 0.4 exactly below 2000·f ms |
| Learning.GradeScore | lib/learning.ts:54-63 | the grade score is in [0,1]: grade 5 scores 1.0, 4 scores 0.7, 3 scores 0.4, 2 scores 0.2, 1 scores 0.0, and a grade outside 1..5 scores 0.5 |
| Learning.FlipScore | lib/learning.ts:65-67 | 0.05 when flipped, 0.15 otherwise |
| Learning.DifficultyAdjustment | lib/learning.ts:69-74 | the adjusted score lies in [0,1] and equals raw × (1 + (d−5)·0.05) when that is in range |
| Learning.CalculatePerformance | lib/learning.ts:79-101 | the four sub-scores are returned as computed; rawScore is the weighted sum blended with the difficulty-adjusted score at weight 0.20 (not replaced by it), so it lies in [0,1] and between the two |
| Learning.NextConfidence | lib/learning.ts:124-125 | the new confidence is c + (1 − c)·0.05 when that is below 0.95 and exactly 0.95 otherwise; it is ≤ 0.95 and never below a confidence that was ≤ 0.95 |
| Learning.CalculateProficiencyUpdate | lib/learning.ts:106-128 | the change is the confidence-dependent learning rate 0.15·(1 − 0.5c) times the gap between 100 × rawScore and p; the new proficiency is p + change clamped to [0,100] (0 below, 100 above); confidence follows `NextConfidence`; change > 0 iff the performance beats p/100, and < 0 iff it falls short |
| Learning.ConfidenceSlowsChange | lib/learning.ts:111-118 | for confidences 0 ≤ c1 ≤ c2 ≤ 0.95 the same review moves the more confident estimate in the same direction and never further |
| Learning.LabelFor | lib/learning.ts:144-155 | the label bands <30 Beginner, <50 Elementary, <70 Intermediate, <85 Advanced, else Expert, both directions |
| Learning.StretchedTarget | lib/learning.ts:138-141 | the stretched target lies in [1,10] |
| Learning.CalculateTargetDifficulty | lib/learning.ts:133-161 | the difficulty is an integer in 1..10 within 0.5 of clamp(1.15·p/10, 1, 10), and the label is `LabelFor(p)` |
| Learning.TimeWindows | lib/learning.ts:34-51 | for p in [0,100] the four windows are consecutive and cover every response time |
| Learning.TimeScoreNonIncreasingWhenNotTooFast | lib/learning.ts:42-51 | past the too-fast window a slower answer never scores higher |
| Learning.TimeScoreAtBaseline | __tests__/learningEngine.test.ts:57-89 | at p = 50: 1000 ms → 0.4, 5000 ms → 1.0, 20000 ms → 0.3 |
| Learning.TimeWindowShrinksAtLowProficiency | __tests__/learningEngine.test.ts:91-109 | at 8000 ms, p = 20 scores 0.6 and p = 80 scores 1.0, the opposite of the test's expectation |
| Learning.GradeScoreMonotone | lib/learning.ts:54-63 | over grades 1..5 a better grade never scores lower |
| Learning.DifficultyAdjustmentMonotoneInDifficulty | lib/learning.ts:69-74 | for a non-negative raw sum a harder card never gets a lower adjusted score |
| Learning.DifficultyAdjustmentMonotoneInRaw | lib/learning.ts:69-74 | for a non-negative multiplier a larger raw sum never gets a lower adjusted score |
| Learning.RawScoreUpperBound | lib/learning.ts:84-92 | the weighted sum lies in [0.0825, 0.6725] and rawScore in [0.066, 0.738] |
| Learning.PerformanceMonotoneInGrade | lib/learning.ts:79-92 | with the other signals fixed, a better grade never lowers rawScore |
| Learning.HarderCardScoresHigher | __tests__/learningEngine.test.ts:136-154 | on a grade-5 review the difficulty-adjusted score rises strictly from difficulty 2 to 5 to 8 |
| Learning.PerfectReviewScore | __tests__/learningEngine.test.ts:157-166 | grade 5, 5000 ms, unflipped, difficulty 7 at p = 50 gives a rawScore in (0.68, 0.69) |
| Learning.PoorReviewScore | __tests__/learningEngine.test.ts:168-177 | grade 1, slow, flipped, difficulty 3 scores below 0.3 |
| Learning.MixedReviewScore | __tests__/learningEngine.test.ts:179-189 | grade 3, 12000 ms, flipped, difficulty 5 scores in (0.2, 0.6) |
| Learning.ProficiencyMovesTowardPerformance | lib/learning.ts:112-122 | for confidence in [0,0.95] the new proficiency lies between p and 100 × rawScore |
| Learning.ChangeBounded | lib/learning.ts:112-120 | one update moves proficiency by at most 15 points |
| Learning.ExpectedPerformanceIsFixedPoint | lib/learning.ts:116-122 | a performance of exactly p/100 leaves proficiency unchanged |
| Learning.ConfidenceAfterBounds | lib/learning.ts:124-125 | across any number of reviews confidence never decreases and never passes 0.95 |
| Learning.ConfidenceGapShrinks | lib/learning.ts:125 | below the cap each review closes 5% of the gap to 1 |
| Learning.TargetDifficultyMonotone | lib/learning.ts:133-161 | a higher proficiency never gets an easier difficulty or a lower label |
| Learning.TargetDifficultyExamples | __tests__/learningEngine.test.ts:234-264 | 25 → (3, Beginner), 50 → (6, Intermediate), 80 → (9, Advanced) |
| LearningEngine.NextAverage | actions/learningEngine.ts:60-62 | an absent or zero average is replaced by the new time; otherwise the result is the 0.9·old + 0.1·new blend rounded half up, and lies between the old average and the new time |
| LearningEngine.AverageApproachesNewTime | actions/learningEngine.ts:60-62 | each review closes the distance to the new time to at most 90% of it plus half a millisecond, without overshooting |
| LearningEngine.SteadyTimeKeepsAverage | actions/learningEngine.ts:60-62 | a response time equal to the average keeps it |
| LearningEngine.ReviewedRow | actions/learningEngine.ts:53-74 | the written row has one more review, a score in [0,100], a confidence ≤ 0.95 that never drops, and the average `NextAverage` of the old average and the response time |
| LearningEngine.ReviewedRowFollowsEstimator | actions/learningEngine.ts:53-70 | the stored score and confidence are exactly the estimator's outputs |
| LearningEngine.FirstReviewAtExpectedPerformance | actions/learningEngine.ts:30-76 | a first review scored 0.5 turns the default row into (50, 0.335, 1 review, its own time) |
| LearningEngine.SeedScore | actions/learningEngine.ts:178-184 | Beginner → 25, Intermediate → 50, Advanced → 75 |
| LearningEngine.SeededRow | actions/learningEngine.ts:178-198 | the seeded row has the placement score, confidence min(0.6, c/100) ≤ 0.6, zero reviews, and keeps the average of an existing row |
| LearningEngine.TargetFromRow | actions/learningEngine.ts:132-165 | the proficiency used is the row's score, or 50 when there is no row; the difficulty is in 1..10 |
| LearningEngine.TargetAgreesWithLibrary | actions/learningEngine.ts:137-164 | the server's copy of the formula and bands agrees with `calculateTargetDifficulty` on every row |
| LearningEngine.MissingRowTarget | actions/learningEngine.ts:138 | with no row the target is (6, Intermediate) at proficiency 50 |
| LearningEngine.SeededTargets | actions/learningEngine.ts:178-185 | seeding Beginner, Intermediate or Advanced then reading the target gives 3, 6 or 9 |
| LearningEngine.SeededConfidenceRange | actions/learningEngine.ts:185 | a placement confidence in [30,90] seeds a confidence in [0.3, 0.6] |
| LearningEngine.ProficiencyTable.Get | actions/learningEngine.ts:106-127 | the lookup returns the stored row exactly when the key is present |
| LearningEngine.ProficiencyTable.TargetDifficultyOf | actions/learningEngine.ts:132-165 | a missing row gives (6, Intermediate, 50); otherwise the library's difficulty and label for the stored score, and that score as the proficiency |
| LearningEngine.ProficiencyTable.UpdateProficiency | actions/learningEngine.ts:14-77 | a missing row whose insert fails returns (50, 0.3) and stores nothing; otherwise the default or stored row becomes `ReviewedRow` and the returned values are the stored ones |
| LearningEngine.ProficiencyTable.InitializeProficiency | actions/learningEngine.ts:170-199 | the upsert leaves exactly `SeededRow` at the key and every other row unchanged |
| LearningEngine.ReviewSignalLog.RecordReviewSignal | actions/learningEngine.ts:82-101 | one record with the given signals is appended |
| SubmitReview.CardTopic | actions/submitReview.ts:41 | the argument topic, else the deck's, else 'General', with "" counting as absent |
| SubmitReview.ScoringDifficulty | actions/submitReview.ts:64 | the signal's difficulty, else the card's, else 5 |
| SubmitReview.RecordedDifficulty | actions/submitReview.ts:83 | the signal's difficulty, else 5 |
| SubmitReview.ReviewPerformance | actions/submitReview.ts:57-65 | the score is in [0,1], uses the grade and flip tables, and times against the row's proficiency or 50; the difficulty-adjusted score scales the weighted sum by the signal's difficulty, else the card's, else 5; the final score is the 0.8/0.2 blend of the weighted sum and the adjusted score |
| SubmitReview.BoostedEase | actions/submitReview.ts:88-92 | above proficiency 70 the ease becomes min(3.0, 1.05 × ease) ≤ 3.0; otherwise unchanged |
| SubmitReview.BoostDirection | actions/submitReview.ts:90-92 | the boost raises an ease ≤ 3.0 without passing 3.0, and lowers a larger ease to 3.0 |
| SubmitReview.BoostLowersHighEase | actions/submitReview.ts:88-92 | a perfect review at ease 3.0 gives 3.1, and the boost then lowers it to 3.0 |
| SubmitReview.NextStreak | actions/submitReview.ts:106-116 | the same day keeps the streak, the day after adds one, and anything else (including no history) gives 1 |
| SubmitReview.ConsecutiveDaysAddUp | actions/submitReview.ts:106-116 | studying on n consecutive days adds n to the streak |
| SubmitReview.StreakResetAndRepeat | actions/submitReview.ts:106-116 | a missed day or no history resets to 1; a second review the same day changes nothing |
| SubmitReview.ApplySignals | actions/submitReview.ts:55-93 | scores against the row read before the update, stores `ReviewedRow` (or the defaults on a failed insert), logs the signal and applies the boost |
| SubmitReview.PayReviewReward | actions/submitReview.ts:95-124 | coins +10, the streak rule, last study day = today; pet fields untouched |
| SubmitReview.SubmitReview | actions/submitReview.ts:20-142 | a missing card or profile fails before any write; the card gets the scheduler's interval and next review, and an ease boosted only with signals; the pet moves by `Transition`; coins +10 and the streak; without signals the proficiency table and log are unchanged |
| PlacementTest.AvoidList | actions/placementTest.ts:26-28 | at most the first five seen questions, in order |
| PlacementTest.AvoidClause | actions/placementTest.ts:26-28 | the clause is empty exactly when nothing has been seen |
| PlacementTest.FilterValid | actions/placementTest.ts:77-83 | keeps a question iff its answer is an option, it has ≥ 2 options and no option is a bare letter A–D |
| PlacementTest.FilterValidAppend | actions/placementTest.ts:77-83 | filtering distributes over concatenation, so input order is kept |
| PlacementTest.FilterValidIdempotent | actions/placementTest.ts:77-83 | filtering twice equals filtering once |
| PlacementTest.GeneratePlacementQuiz | actions/placementTest.ts:19-90 | a missing key throws; otherwise every returned question is valid, a failed request or parse yields no questions, and a parsed reply yields exactly its valid questions in order |
| PlacementTest.FilterValidKeepsValid | actions/placementTest.ts:77-83 | a list of valid questions passes the filter unchanged |
| PlacementTest.QuizIsParsedReply | actions/placementTest.ts:71-85 | when every parsed question is valid, the quiz is exactly the parsed, fence-stripped reply |
| PlacementTest.ResponseScore | actions/placementTest.ts:107-114 | in [0, 1.5]; 0 iff incorrect; 1.5 iff correct in under 10000 ms |
| PlacementTest.TotalScoreBounds | actions/placementTest.ts:106-116 | the total lies in [0, 1.5·n] |
| PlacementTest.TotalScoreExtremes | actions/placementTest.ts:106-116 | all wrong totals 0; all correct and fast totals 1.5·n |
| PlacementTest.Percentage | actions/placementTest.ts:116-117 | the percentage lies in [0,100] |
| PlacementTest.Band | actions/placementTest.ts:122-131 | ≥ 70 Advanced with min(90, pct); [40,70) Intermediate with min(85, 50 + pct/2); < 40 Beginner with min(80, 30 + pct) |
| PlacementTest.BandConfidenceRanges | actions/placementTest.ts:122-131 | Advanced confidence in [70,90], Intermediate in [70,85], Beginner in [30,70) |
| PlacementTest.BandMonotone | actions/placementTest.ts:122-131 | a higher percentage never gives a lower level |
| PlacementTest.LowConfidenceIffBelow35 | actions/placementTest.ts:122-131 | the confidence is below 65 exactly when the percentage is below 35 |
| PlacementTest.EvaluatePlacement | actions/placementTest.ts:93-134 | the loop's score is `TotalScore` of the responses and the result is `Band` of the percentage |
| PlacementTest.PlacementExamples | actions/placementTest.ts:106-131 | three correct fast answers → (Advanced, 90); three wrong → (Beginner, 30) |
| PetLogic.XpGain | actions/petLogic.ts:38-46 | grade 4 +20, 3 +10, ≥ 5 +5, otherwise 0 |
| PetLogic.HealthAfterGrade | actions/petLogic.ts:47-49 | grade ≤ 1 costs 10 health, floored at 0; other grades keep it |
| PetLogic.NextStage | actions/petLogic.ts:54-57 | egg→baby at 100, baby→child at 500, child→adult at 1500; adult and unknown stages stay |
| PetLogic.Transition | actions/petLogic.ts:38-64 | XP gains by grade; the stage advances by `NextStage`; evolved iff the stage changed; evolution sets health 100, otherwise the grade's health rule |
| PetLogic.UpdatePetState | actions/petLogic.ts:13-83 | a missing profile fails; otherwise the result is `Transition` of the stored state, it is written, and nothing is written when no field changes |
| PetLogic.XpRewardExamples | actions/actions.test.ts:73-89 | from a fresh egg, grade 4 gives 20 XP, 3 gives 10, 5 gives 5 |
| PetLogic.FailCostsHealth | actions/petLogic.ts:47-49 | without evolution a failed review costs 10 health, floored at 0, and keeps XP |
| PetLogic.Grade2ChangesNothing | actions/petLogic.ts:38-50 | grade 2 without a pending evolution changes and writes nothing |
| PetLogic.AtMostOneStage | actions/petLogic.ts:54-57 | a review moves the pet at most one stage forward; adult is terminal |
| PetLogic.OneStepEvenWithExcessXp | actions/petLogic.ts:54-57 | an egg with 2000 XP only hatches into a baby |
| PetLogic.HealthStaysInRange | actions/petLogic.ts:47-64 | health in [0,100] stays in [0,100] |
| PetLogic.XpNeverDecreases | actions/petLogic.ts:38-46 | XP never decreases |
| FeedPet.Feed | actions/feedPet.ts:19-27 | too few coins iff coins < 50; otherwise coins −50 (≥ 0), health +20 capped at 100 (exactly 100 when health + 20 exceeds it) and never lowered, XP +5 |
| FeedPet.FeedPet | actions/feedPet.ts:5-45 | a missing profile fails with 'User not found'; too few coins changes nothing; otherwise the fed stats are written and returned |
| FeedPet.TwoMealsNeedHundredCoins | actions/feedPet.ts:19-27 | a second meal right after the first is affordable iff the balance was ≥ 100 |
| BossFight.Eligible | actions/bossFight.ts:12-17 | exactly the user's cards in the topic with ease < 2.3, each with its multiplicity in the input and every other card dropped |
| BossFight.EligibleAppend | actions/bossFight.ts:12-17 | filtering distributes over concatenation, so the query keeps the stored order |
| BossFight.Insert | actions/bossFight.ts:18 | insertion keeps the order by ease and adds exactly one card |
| BossFight.SortByEase | actions/bossFight.ts:18 | the result is sorted by ascending ease and is a permutation of the input |
| BossFight.SelectLeeches | actions/bossFight.ts:12-19 | min(5, #eligible) eligible cards, sorted by ease, taken from the input |
| BossFight.LeechesAreTheWorst | actions/bossFight.ts:17-19 | every eligible card left out has an ease ≥ every selected one |
| BossFight.FieldOrUnknown | actions/bossFight.ts:37 | a missing or empty field reads 'Unknown'; a non-empty one is kept |
| BossFight.ConceptLines | actions/bossFight.ts:35-38 | one concept line per leech, in order |
| BossFight.OneLinePerLeech | actions/bossFight.ts:35-38 | the joined prompt splits back into exactly one line per leech when no field has a newline |
| BossFight.GenerateBossEncounter | actions/bossFight.ts:7-76 | a failed query throws; fewer than 3 leeches means unavailable; a missing key throws; with ≥ 3 leeches and a key, a reply gives an encounter with the selected leeches' concepts and the reply's questions, and no reply throws the AI error |
| BossFight.EncounterNeedsThreeLeeches | actions/bossFight.ts:26-31 | any encounter has at least three eligible cards |
| BossFight.FightStats | actions/bossFight.ts:81-107 | a win gives +100 XP, +50 coins and health 100; a loss keeps XP and coins and costs 20 health, and health below 20 drops to exactly 0 |
| BossFight.BossResultExamples | actions/actions.test.ts:144-164 | a win from (100 XP, 50 coins, 50 health) gives (200, 100, 100); a loss from 50 health leaves 30 |
| BossFight.SubmitBossResult | actions/bossFight.ts:78-111 | a missing profile reports not found; otherwise the profile's stats become `FightStats` and nothing else changes |
| BossFight.LossesThenWin | actions/bossFight.ts:81-108 | five losses take full health to 0, a sixth stays at 0, and a win restores 100 |
| GenerateDeck.GuidanceFor | actions/generateDeck.ts:15-43 | ≤ 2 Absolute Beginner, ≤ 4 Beginner, ≤ 6 Intermediate, ≤ 8 Advanced, else Expert, both directions |
| GenerateDeck.GuidanceMonotone | actions/generateDeck.ts:15-43 | a higher level never gets gentler guidance |
| GenerateDeck.LabelLevel | actions/generateDeck.ts:60-63 | Expert 9, Advanced 7, Intermediate 5, Elementary 3, anything else 2 |
| GenerateDeck.DifficultyLevel | actions/generateDeck.ts:59-63 | a supplied number overrides the label map; otherwise the level is one of 2, 3, 5, 7, 9 |
| GenerateDeck.LabelsLandInTheirBand | actions/generateDeck.ts:48-65 | each label maps to its own guidance band; Elementary lands in Beginner and the default 'Beginner' in Absolute Beginner |
| GenerateDeck.CardRows | actions/generateDeck.ts:143-152 | one row per parsed item, in order, with interval 0, ease 2.5 and difficulty = level |
| GenerateDeck.NewCardsStartTheSchedule | actions/generateDeck.ts:149-150 | a new card's first review schedules it one day out, whatever the grade |
| GenerateDeck.GenerateDeckOutcome | actions/generateDeck.ts:45-168 | a missing key throws (and only then); a failed request is reported as 'xAI API request failed: ' + error, a bad parse as 'Failed to parse generated flashcards', a failed deck insert as 'Failed to create deck: ' + error, a failed card insert as 'Failed to create cards: ' + error; otherwise the deck is created holding `CardRows` of the parsed, fence-stripped reply |
| Text.Join | actions/bossFight.ts:38 | joining nothing gives "" and one part gives that part |
| Text.SplitJoin | actions/bossFight.ts:35-38 | splitting a join of newline-free parts gives the parts back |
| Text.RemoveAll | actions/generateDeck.ts:116 | a global removal never lengthens the text and leaves text without the pattern's first character unchanged |
| Text.RemoveAllDropsOccurrence | actions/generateDeck.ts:116 | the first occurrence of the pattern is removed, the text before it kept and the rest processed alike (inner backticks before a fence included) |
| Text.RemoveAllAfterCleanPrefix | actions/generateDeck.ts:116 | in particular after text without the pattern's first character |
| Text.TrimStart | actions/generateDeck.ts:116 | drops exactly the leading whitespace |
| Text.TrimEnd | actions/generateDeck.ts:116 | drops exactly the trailing whitespace |
| Text.Trim | actions/generateDeck.ts:116 | the result is a middle slice with only whitespace around it, and neither starts nor ends with whitespace |
| Text.StripFences | actions/generateDeck.ts:116 | the cleaned reply is the fence-free reply with whitespace cut from both ends, and neither starts nor ends with whitespace |
| Text.StripFencesIdentity | actions/generateDeck.ts:116 | a reply without backticks or surrounding whitespace is unchanged |
| Text.StripFencesUnwraps | actions/generateDeck.ts:116 | "```json" + body + "```" with a backtick-free body yields the trimmed body |
| PlacementQuiz.Texts | components/PlacementQuiz.tsx:47 | the question texts, in order |
| PlacementQuiz.Unseen | components/PlacementQuiz.tsx:63-65 | keeps exactly the fetched questions whose text was not seen, each as often as it was fetched |
| PlacementQuiz.UnseenAppend | components/PlacementQuiz.tsx:63-65 | the filter distributes over concatenation, so the fetched order is kept |
| PlacementQuiz.NeedsMoreIffBelow35 | components/PlacementQuiz.tsx:105 | more questions are fetched exactly when fewer than 9 answers score below 35 percent |
| PlacementQuiz.FetchedAreUnseen | components/PlacementQuiz.tsx:58-70 | an accepted question never repeats a seen one, and filtering again accepts the same |
| PlacementQuiz.Quiz.constructor | components/PlacementQuiz.tsx:28-33 | a new quiz is loading, with no questions and no responses |
| PlacementQuiz.Quiz.LoadInitial | components/PlacementQuiz.tsx:42-55 | an empty first batch skips the quiz; otherwise the batch is asked from index 0 and `seen` is its texts |
| PlacementQuiz.Quiz.FetchMore | components/PlacementQuiz.tsx:58-70 | questions and `seen` grow by exactly the unseen part of the batch |
| PlacementQuiz.Quiz.HandleAnswer | components/PlacementQuiz.tsx:72-120 | appends one response marked correct iff the answer matches; advances if questions remain; otherwise evaluates and fetches more (confidence < 65, < 9 answers) or finishes with the band, keeping the index |
| BossFightModal.Step | components/BossFightModal.tsx:24-45 | the terminal screens ignore further answers |
| BossFightModal.RunMeaning | components/BossFightModal.tsx:24-45 | the index stays in range; failed and complete never both hold; ongoing means every answer was right; complete means every question was answered correctly; failed marks the first wrong answer |
| BossFightModal.WinAndLoss | components/BossFightModal.tsx:28-43 | three correct answers win; a wrong first answer loses at question 0 |
| BossFightModal.Fight.constructor | components/BossFightModal.tsx:16-18 | a fight starts at question 0, neither failed nor complete, with nothing submitted |
| BossFightModal.Fight.HandleAnswer | components/BossFightModal.tsx:24-45 | a wrong answer fails and submits one loss; a correct non-final answer advances; a correct final answer completes and submits one win; on either submission the profile's XP, coins and health are the fight's result and its stage, streak and last study day are unchanged |
| SwipeableCardStack.ClassifyDrag | components/SwipeableCardStack.tsx:72-87 | x > 100 → 5, x < −100 → 3, else y < −100 → 4, y > 100 → 1 |
| SwipeableCardStack.ClassifyDragCases | components/SwipeableCardStack.tsx:72-87 | snap back iff both offsets are within ±100; grade 2 never occurs |
| SwipeableCardStack.HorizontalWins | components/SwipeableCardStack.tsx:75-82 | past the horizontal threshold the vertical offset is ignored |
| SwipeableCardStack.SwipeDifficulty | components/SwipeableCardStack.tsx:118 | the card's difficulty, else 5 |
| SwipeableCardStack.SwipeDifficultyMatchesServerFallback | components/SwipeableCardStack.tsx:118 | the difficulty the stack sends scores a card as the server's own fallback would |
| SwipeableCardStack.StackTopic | components/SwipeableCardStack.tsx:47 | the deck's topic when non-empty, else the current topic when non-empty, else 'Learning' |
| SwipeableCardStack.CardStack.Flip | components/SwipeableCardStack.tsx:197 | flipping toggles the face, never records a flip and changes nothing else |
| SwipeableCardStack.CardStack.constructor | components/SwipeableCardStack.tsx:22-27 | a new stack shows the first card unflipped, with nothing submitted or requested |
| SwipeableCardStack.CardStack.PrefetchDone | components/SwipeableCardStack.tsx:66-68 | a resolved prefetch clears the in-flight flag and changes nothing else |
| SwipeableCardStack.CardStack.PrefetchEffect | components/SwipeableCardStack.tsx:62-70 | a request starts exactly when 3 cards remain and none is in flight, changing only the in-flight flag and the request count |
| SwipeableCardStack.CardStack.CompleteSwipe | components/SwipeableCardStack.tsx:97-145 | submits one review with `wasFlipped` false and difficulty ?? 5; advances if cards remain, otherwise marks generating and requests the next deck; the prefetch flag is kept |
| SwipeableCardStack.CardStack.HandleDragEnd | components/SwipeableCardStack.tsx:72-87 | an unclassified drag changes nothing; a classified one does exactly what completing the swipe with that grade does (review appended, advance or next-deck request, prefetch flag kept) |
| SwipeableCardStack.PrefetchRefiresOnSameCard | components/SwipeableCardStack.tsx:62-70 | effect, resolve, effect on the same card makes two next-deck requests |
| PetDisplay.Hearts | components/PetDisplay.tsx:15 | the smallest h with health ≤ 20·h |
| PetDisplay.HeartsInRange | components/PetDisplay.tsx:14-15 | health in [0,100] shows 0..5 hearts: none iff health 0, five iff health > 80 |
| PetDisplay.HeartExamples | components/PetDisplay.tsx:15 | 100 → 5, 0 → 0, 1 → 1, 21 → 2 |
| PetDisplay.HeartsMonotone | components/PetDisplay.tsx:43-48 | a filled slot stays filled at higher health |
| PetDisplay.Level | components/PetDisplay.tsx:16 | (level − 1)·100 ≤ xp < level·100 |
| PetDisplay.JsRem | components/PetDisplay.tsx:59 | JavaScript's `%`: the sign follows the dividend and a = trunc(a/b)·b + r |
| PetDisplay.XpBar | components/PetDisplay.tsx:59 | in [0,100) for non-negative XP, and ≤ 0 for negative XP |
| PetDisplay.ToLower | components/PetDisplay.tsx:28-31 | lowercases ASCII capitals and keeps every other character, with the length unchanged |
| PetDisplay.LevelAndBarDecomposeXp | components/PetDisplay.tsx:16-59 | for non-negative XP, (level − 1)·100 + bar = xp |
| PetDisplay.NegativeXpBar | components/PetDisplay.tsx:59 | XP −150 would show bar −50 at level −1 |
| PetDisplay.SpriteFor | components/PetDisplay.tsx:28-31 | each sprite iff the lowercased stage is egg, baby, teen or adult |
| PetDisplay.PetLogicStagesSprites | components/PetDisplay.tsx:28-31 | the pet logic's egg, baby and adult stages have sprites |
| PetDisplay.ChildStageHasNoSprite | components/PetDisplay.tsx:28-31 | the pet logic's 'child' stage matches no sprite |
| PetDisplay.CapitalisedStage | components/PetDisplay.tsx:28 | 'Egg' matches the egg sprite |

## Left out

- Database I/O (Supabase queries, joins, ordering clauses and writes) is replaced by objects, maps and sequences. Write errors are not modelled: 'Failed to update pet state' and 'Failed to feed pet' are thrown by the source but left out, and the failures that `submitReview` ignores are left out too.
- Read failures other than a missing row are treated as a missing row.
- The `updated_at` and `last_updated` timestamps are not modelled.
- The source's `|| 0` fallbacks for null profile columns are not modelled, because the model's fields are never null.
- feedPet reads and writes the table 'Profiles' with a capital P, while every other action uses 'profiles'. The model uses the same profile object for both; this casing difference is not modelled.
- The xAI requests and `JSON.parse` become parameters: the reply, a parser function, and a failure flag. Prompt texts other than the avoid clause and the boss concepts are not modelled.
- Floating point is not modelled; values are exact reals. `toFixed(2)` and `Math.round` are round-half-up, so artefacts such as 6 × 2.6 = 15.600000000000001 do not appear.
- Dates, ISO strings and UTC day extraction become integer day numbers.
- Concurrency is not modelled. That covers the unawaited `submitReview` from the card stack, the non-blocking `recordReviewSignal`, and the read-modify-write races.
- Rendering, animation, haptics, confetti, routing, the 800 ms result pause and the drag-time pet reactions are not modelled.
- PlacementTest.EvaluatePlacement: requires at least one response. With none the source divides by zero and yields NaN, which reals cannot express. The quiz only evaluates after an answer. The unused average response time is not computed.
- PlacementTest.GeneratePlacementQuiz: parsed items are assumed to have the declared shape. A malformed item would throw inside the filter and yield no questions.
- BossFight.SelectLeeches: ties in ease keep input order. The database leaves their order unspecified.
- BossFight.GenerateBossEncounter: the generated questions are passed through unvalidated, as in the source. Fence stripping before the parse is folded into the `reply` parameter.
- BossFightModal.Fight.constructor: requires at least one question. A boss reply of `[]` still opens the modal from components/BossTrigger.tsx:23-26, because an empty array is truthy, and the question screen then throws on `currentQ.question` (components/BossFightModal.tsx:82). Rendering is not part of this model.
- PlacementQuiz.Quiz.HandleAnswer: finishing sets the `Finished` phase with the level and confidence. The `generateDeck` call and the `onComplete` callback that follow are not modelled.
- PlacementQuiz.Quiz.HandleAnswer: in the fetch path the index is advanced before the fetch rather than after. Both are state updates of the same handler, and the fetch does not read the index.
- SwipeableCardStack.CardStack.CompleteSwipe: the `wasFlipped` reset of the `activeIndex` effect is folded into the advance. The `onSwipe` callback and the router refresh are not modelled.
- PetDisplay.ToLower: lowercases ASCII letters only, where JavaScript's `toLowerCase` covers all of Unicode. All stage names are ASCII.
- LearningEngine.ProficiencyTable.UpdateProficiency: a read that fails for a row that exists is not modelled. The source would then try to insert and return the defaults when the unique key rejects it.
- actions/chatWithPet.ts, onboarding.ts, getDueCards.ts, getAllCards.ts, getDecks.ts and generateNextDeck.ts are not part of this model. They are I/O glue.
- These components are not part of this model: HomeLoop (random boss trigger), StudySession (timer-driven) and ControlPad (a button table that never emits grade 2). Neither are the other rendering components.
