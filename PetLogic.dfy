/**
 * actions/petLogic.ts: a review's grade changes the pet's XP or health, and
 * crossing the next stage's XP threshold evolves the pet one stage and
 * restores its health.
 */
module PetLogic {
  import opened Wrappers
  import opened Numeric
  import opened Profiles

  const BabyThreshold: int := 100
  const ChildThreshold: int := 500
  const AdultThreshold: int := 1500
  const FullHealth: int := 100

  datatype PetState = PetState(xp: int, health: int, stage: string)

  /** What `updatePetState` returns: the new state and whether the stage changed. */
  datatype PetUpdate = PetUpdate(newState: PetState, evolved: bool)

  /** Good (4) earns most, Hard (3) less, Easy (5 and above) least; other grades nothing. */
  function XpGain(grade: int): (g: int)
    ensures g >= 0
    ensures grade == 4 ==> g == 20
    ensures grade == 3 ==> g == 10
    ensures grade >= 5 ==> g == 5
    ensures grade <= 2 ==> g == 0
  {
    if grade == 4 then 20 else if grade == 3 then 10 else if grade >= 5 then 5 else 0
  }

  /** A failed review (grade 1 or below) costs 10 health, never below 0. */
  function HealthAfterGrade(health: int, grade: int): (h: int)
    ensures grade <= 1 ==> h == MaxInt(0, health - 10)
    ensures grade > 1 ==> h == health
  {
    if grade <= 1 then MaxInt(0, health - 10) else health
  }

  /** The position of a known stage: egg 0, baby 1, child 2, adult 3. */
  function StageRank(stage: string): Option<nat> {
    if stage == "egg" then Some(0)
    else if stage == "baby" then Some(1)
    else if stage == "child" then Some(2)
    else if stage == "adult" then Some(3)
    else None
  }

  /** The next stage if `xp` reached its threshold, else the same stage. */
  function NextStage(stage: string, xp: int): (s: string)
    ensures stage == "egg" ==> s == (if xp >= BabyThreshold then "baby" else "egg")
    ensures stage == "baby" ==> s == (if xp >= ChildThreshold then "child" else "baby")
    ensures stage == "child" ==> s == (if xp >= AdultThreshold then "adult" else "child")
    ensures StageRank(stage).None? || stage == "adult" ==> s == stage
  {
    if stage == "egg" && xp >= BabyThreshold then "baby"
    else if stage == "baby" && xp >= ChildThreshold then "child"
    else if stage == "child" && xp >= AdultThreshold then "adult"
    else stage
  }

  /** The state transition of one review. */
  function Transition(s: PetState, grade: int): (u: PetUpdate)
    ensures u.newState.xp == s.xp + XpGain(grade)
    ensures u.newState.stage == NextStage(s.stage, u.newState.xp)
    ensures u.evolved <==> u.newState.stage != s.stage
    ensures u.evolved ==> u.newState.health == FullHealth
    ensures !u.evolved ==> u.newState.health == HealthAfterGrade(s.health, grade)
  {
    var xp := s.xp + XpGain(grade);
    var stage := NextStage(s.stage, xp);
    var evolved := stage != s.stage;
    PetUpdate(PetState(xp, if evolved then FullHealth else HealthAfterGrade(s.health, grade), stage), evolved)
  }

  /** Whether `updatePetState` writes the profile: every grade but 2, or an evolution. */
  function Writes(s: PetState, grade: int): bool {
    grade != 2 || Transition(s, grade).evolved
  }

  /** `updatePetState`: the step-by-step update of the source, written back only when something changed. */
  method UpdatePetState(profile: Profile?, grade: int) returns (r: Result<PetUpdate, string>)
    modifies profile
    ensures profile == null ==> r == Failure("Profile not found")
    ensures profile != null ==>
              var u := Transition(PetState(old(profile.xp), old(profile.health), old(profile.stage)), grade);
              && r == Success(u)
              && profile.xp == u.newState.xp && profile.health == u.newState.health && profile.stage == u.newState.stage
              && profile.coins == old(profile.coins) && profile.currentStreak == old(profile.currentStreak)
              && profile.lastStudyDay == old(profile.lastStudyDay)
    ensures profile != null && !Writes(PetState(old(profile.xp), old(profile.health), old(profile.stage)), grade) ==>
              unchanged(profile)
  {
    if profile == null {
      return Failure("Profile not found");
    }
    var fetchedStage := profile.stage;
    var xp, health, stage := profile.xp, profile.health, profile.stage;
    var hasChanged := false;

    if grade == 4 {
      xp := xp + 20;
      hasChanged := true;
    } else if grade == 3 {
      xp := xp + 10;
      hasChanged := true;
    } else if grade >= 5 {
      xp := xp + 5;
      hasChanged := true;
    } else if grade <= 1 {
      health := MaxInt(0, health - 10);
      hasChanged := true;
    }

    var newStage := stage;
    if stage == "egg" && xp >= BabyThreshold {
      newStage := "baby";
    } else if stage == "baby" && xp >= ChildThreshold {
      newStage := "child";
    } else if stage == "child" && xp >= AdultThreshold {
      newStage := "adult";
    }

    if newStage != stage {
      stage := newStage;
      hasChanged := true;
      health := FullHealth;
    }

    if hasChanged {
      profile.xp, profile.health, profile.stage := xp, health, stage;
    }
    r := Success(PetUpdate(PetState(xp, health, stage), newStage != fetchedStage));
  }

  // ---------------------------------------------------------------------
  // Properties of the transition

  /** The incentive examples: from a fresh egg, Good gives 20 XP, Hard 10, Easy 5. */
  lemma XpRewardExamples()
    ensures Transition(PetState(0, 100, "egg"), 4).newState.xp == 20
    ensures Transition(PetState(0, 100, "egg"), 3).newState.xp == 10
    ensures Transition(PetState(0, 100, "egg"), 5).newState.xp == 5
  {
  }

  /** Without an evolution, a failed review lowers health by 10 (floored at 0) and leaves XP alone. */
  lemma FailCostsHealth(s: PetState, grade: int)
    requires grade <= 1
    requires !Transition(s, grade).evolved
    ensures Transition(s, grade).newState == PetState(s.xp, MaxInt(0, s.health - 10), s.stage)
  {
  }

  /** Grade 2 without a pending evolution changes nothing and writes nothing. */
  lemma Grade2ChangesNothing(s: PetState)
    requires NextStage(s.stage, s.xp) == s.stage
    ensures Transition(s, 2).newState == s
    ensures !Writes(s, 2)
  {
  }

  /** A pet moves at most one stage per review, forward only; adult (and any unknown stage) is terminal. */
  lemma AtMostOneStage(s: PetState, grade: int)
    ensures var t := Transition(s, grade).newState.stage;
            && (StageRank(s.stage).Some? ==>
                  (StageRank(t).Some? && StageRank(s.stage).value <= StageRank(t).value <= StageRank(s.stage).value + 1))
            && (s.stage == "adult" || StageRank(s.stage).None? ==> t == s.stage)
  {
  }

  /** An egg with enough XP for adulthood still only hatches into a baby. */
  lemma OneStepEvenWithExcessXp()
    ensures Transition(PetState(2000, 40, "egg"), 2) == PetUpdate(PetState(2000, 100, "baby"), true)
  {
  }

  /** Health in [0,100] stays in [0,100]. */
  lemma HealthStaysInRange(s: PetState, grade: int)
    requires 0 <= s.health <= FullHealth
    ensures 0 <= Transition(s, grade).newState.health <= FullHealth
  {
  }

  /** XP never decreases. */
  lemma XpNeverDecreases(s: PetState, grade: int)
    ensures Transition(s, grade).newState.xp >= s.xp
  {
  }
}
