/**
 * components/BossFightModal.tsx: the boss fight answer automaton. Questions
 * are answered in order; a wrong answer loses the fight, a correct answer to
 * the last question wins it, and either outcome is submitted once.
 */
module BossFightModal {
  import opened Profiles
  import BossFight

  /** The screen state: the current question, and the two terminal flags. */
  datatype FightState = FightState(index: nat, failed: bool, complete: bool)

  const Start: FightState := FightState(0, false, false)

  /** One answer; the terminal screens offer no answer buttons, so they ignore it. */
  function Step(qs: seq<BossFight.BossQuestion>, s: FightState, option: string): (t: FightState)
    ensures s.failed || s.complete || s.index >= |qs| ==> t == s
  {
    if s.failed || s.complete || s.index >= |qs| then s
    else if option != qs[s.index].answer then s.(failed := true)
    else if s.index < |qs| - 1 then s.(index := s.index + 1)
    else s.(complete := true)
  }

  /** The state after a sequence of answers. */
  function Run(qs: seq<BossFight.BossQuestion>, answers: seq<string>): FightState
    decreases |answers|
  {
    if |answers| == 0 then Start else Step(qs, Run(qs, answers[..|answers| - 1]), answers[|answers| - 1])
  }

  /** The first `n` answers are all correct. */
  predicate AllCorrect(qs: seq<BossFight.BossQuestion>, answers: seq<string>, n: nat)
    requires n <= |qs| && n <= |answers|
  {
    forall i :: 0 <= i < n ==> answers[i] == qs[i].answer
  }

  /**
   * What a run means: while the fight goes on, every answer so far was right;
   * it is won exactly after a correct answer to every question; it is lost at
   * the first wrong answer.
   */
  lemma {:induction false} RunMeaning(qs: seq<BossFight.BossQuestion>, answers: seq<string>)
    requires |qs| > 0
    ensures var r := Run(qs, answers);
            && !(r.failed && r.complete)
            && r.index < |qs|
            && (!r.failed && !r.complete ==> r.index == |answers| && AllCorrect(qs, answers, |answers|))
            && (r.complete ==> r.index == |qs| - 1 && |qs| <= |answers| && AllCorrect(qs, answers, |qs|))
            && (r.failed ==> r.index < |answers| && AllCorrect(qs, answers, r.index) && answers[r.index] != qs[r.index].answer)
    decreases |answers|
  {
    if |answers| > 0 {
      var prefix := answers[..|answers| - 1];
      RunMeaning(qs, prefix);
      forall i | 0 <= i < |prefix| ensures prefix[i] == answers[i] { }
    }
  }

  /** Answering every question correctly, in order, wins; a wrong first answer loses. */
  lemma WinAndLoss(qs: seq<BossFight.BossQuestion>, wrong: string)
    requires |qs| == 3 && wrong != qs[0].answer
    ensures Run(qs, [qs[0].answer, qs[1].answer, qs[2].answer]).complete
    ensures Run(qs, [wrong]) == FightState(0, true, false)
  {
    var answers := [qs[0].answer, qs[1].answer, qs[2].answer];
    assert answers[..2] == [qs[0].answer, qs[1].answer];
    assert answers[..2][..1] == [qs[0].answer];
    assert [qs[0].answer][..0] == [];
    assert Run(qs, [qs[0].answer]) == FightState(1, false, false);
    assert Run(qs, answers[..2]) == FightState(2, false, false);
  }

  class Fight {
    const questions: seq<BossFight.BossQuestion>
    var currentIndex: nat
    var failed: bool
    var complete: bool
    /** The fight results submitted so far, in order. */
    var submitted: seq<bool>
    /** The answers given so far. */
    ghost var answers: seq<string>

    ghost predicate Valid()
      reads this
    {
      && |questions| > 0
      && FightState(currentIndex, failed, complete) == Run(questions, answers)
      && submitted == (if failed then [false] else if complete then [true] else [])
    }

    constructor (questions: seq<BossFight.BossQuestion>)
      requires |questions| > 0
      ensures Valid() && this.questions == questions && currentIndex == 0 && !failed && !complete && submitted == []
    {
      this.questions := questions;
      currentIndex, failed, complete, submitted := 0, false, false, [];
      answers := [];
    }

    /** `handleAnswer` on the question screen; the result is submitted for the player's profile. */
    method HandleAnswer(option: string, profile: Profile?)
      requires Valid() && !failed && !complete
      modifies this, profile
      ensures Valid()
      ensures answers == old(answers) + [option]
      ensures currentIndex < |questions|
      ensures option != questions[old(currentIndex)].answer ==>
                failed && !complete && currentIndex == old(currentIndex) && submitted == [false]
                && (profile != null ==>
                      && (profile.xp, profile.coins, profile.health)
                         == BossFight.FightStats(false, old(profile.xp), old(profile.coins), old(profile.health))
                      && profile.stage == old(profile.stage) && profile.currentStreak == old(profile.currentStreak)
                      && profile.lastStudyDay == old(profile.lastStudyDay))
      ensures option == questions[old(currentIndex)].answer && old(currentIndex) < |questions| - 1 ==>
                !failed && !complete && currentIndex == old(currentIndex) + 1 && submitted == []
                && (profile != null ==> unchanged(profile))
      ensures option == questions[old(currentIndex)].answer && old(currentIndex) == |questions| - 1 ==>
                complete && !failed && submitted == [true]
                && (profile != null ==>
                      && (profile.xp, profile.coins, profile.health)
                         == BossFight.FightStats(true, old(profile.xp), old(profile.coins), old(profile.health))
                      && profile.stage == old(profile.stage) && profile.currentStreak == old(profile.currentStreak)
                      && profile.lastStudyDay == old(profile.lastStudyDay))
    {
      RunMeaning(questions, answers);
      answers := answers + [option];
      assert answers[..|answers| - 1] == old(answers);
      var isCorrect := option == questions[currentIndex].answer;
      if !isCorrect {
        failed := true;
        submitted := submitted + [false];
        var _ := BossFight.SubmitBossResult(profile, false);
      } else if currentIndex < |questions| - 1 {
        currentIndex := currentIndex + 1;
      } else {
        complete := true;
        submitted := submitted + [true];
        var _ := BossFight.SubmitBossResult(profile, true);
      }
    }
  }
}
