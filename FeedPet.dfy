/**
 * actions/feedPet.ts: spend 50 coins to restore 20 health (capped at 100)
 * and gain 5 XP.
 */
module FeedPet {
  import opened Wrappers
  import opened Numeric
  import opened Profiles

  const FeedCost: int := 50
  const FeedHealth: int := 20
  const FeedXp: int := 5
  const MaxHealth: int := 100

  datatype FeedOutcome = NotEnoughCoins | Fed(coins: int, health: int, xp: int)

  /** The stats after feeding, or `NotEnoughCoins` when the balance is below the cost. */
  function Feed(coins: int, health: int, xp: int): (r: FeedOutcome)
    ensures r.NotEnoughCoins? <==> coins < FeedCost
    ensures r.Fed? ==> 0 <= r.coins && r.coins + FeedCost == coins
    ensures r.Fed? ==> r.health <= MaxHealth && (health <= MaxHealth ==> health <= r.health)
    ensures r.Fed? && health + FeedHealth <= MaxHealth ==> r.health == health + FeedHealth
    ensures r.Fed? && health + FeedHealth > MaxHealth ==> r.health == MaxHealth
    ensures r.Fed? ==> r.xp == xp + FeedXp
  {
    if coins < FeedCost then NotEnoughCoins
    else Fed(coins - FeedCost, MinInt(MaxHealth, health + FeedHealth), xp + FeedXp)
  }

  /** `feedPet`: a missing profile throws; too few coins changes nothing; else the new stats are written and returned. */
  method FeedPet(profile: Profile?) returns (r: Result<FeedOutcome, string>)
    modifies profile
    ensures profile == null ==> r == Failure("User not found")
    ensures profile != null ==>
              var f := Feed(old(profile.coins), old(profile.health), old(profile.xp));
              && r == Success(f)
              && (f.NotEnoughCoins? ==> unchanged(profile))
              && (f.Fed? ==> profile.coins == f.coins && profile.health == f.health && profile.xp == f.xp)
              && profile.stage == old(profile.stage) && profile.currentStreak == old(profile.currentStreak)
              && profile.lastStudyDay == old(profile.lastStudyDay)
  {
    if profile == null {
      return Failure("User not found");
    }
    if profile.coins < FeedCost {
      return Success(NotEnoughCoins);
    }
    var newCoins := profile.coins - FeedCost;
    var newHealth := MinInt(MaxHealth, profile.health + FeedHealth);
    var newXp := profile.xp + FeedXp;
    profile.coins, profile.health, profile.xp := newCoins, newHealth, newXp;
    r := Success(Fed(newCoins, newHealth, newXp));
  }

  /** Feeding twice in a row costs 100 coins: a balance of 99 affords exactly one meal. */
  lemma TwoMealsNeedHundredCoins(coins: int, health: int, xp: int)
    requires coins >= FeedCost
    ensures var f := Feed(coins, health, xp);
            Feed(f.coins, f.health, f.xp).Fed? <==> coins >= 2 * FeedCost
  {
  }
}
