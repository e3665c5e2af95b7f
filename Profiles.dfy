/**
 * A row of the `profiles` table (lib/types.ts): the pet's XP, health and
 * stage, the coin balance and the study streak. The server actions read a
 * row, compute, and write some of its fields back; a missing row is `null`.
 */
module Profiles {
  import opened Wrappers

  class Profile {
    var xp: int
    var health: int
    var stage: string
    var coins: int
    var currentStreak: int
    /** The calendar day of the last review, `None` when the user never studied. */
    var lastStudyDay: Option<int>

    constructor (xp: int, health: int, stage: string, coins: int, currentStreak: int, lastStudyDay: Option<int>)
      ensures this.xp == xp && this.health == health && this.stage == stage
      ensures this.coins == coins && this.currentStreak == currentStreak && this.lastStudyDay == lastStudyDay
    {
      this.xp := xp;
      this.health := health;
      this.stage := stage;
      this.coins := coins;
      this.currentStreak := currentStreak;
      this.lastStudyDay := lastStudyDay;
    }
  }
}
