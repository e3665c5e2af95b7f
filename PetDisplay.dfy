/**
 * components/PetDisplay.tsx: the arithmetic behind the pet's hearts, level
 * and XP bar, and the choice of sprite.
 */
module PetDisplay {
  import opened Wrappers
  import opened Numeric

  const HealthPerHeart: int := 20
  const HeartSlots: int := 5
  const XpPerLevel: int := 100

  /** `Math.ceil(health / 20)`. */
  function Hearts(health: int): (h: int)
    ensures (h - 1) * HealthPerHeart < health <= h * HealthPerHeart
  {
    Ceil(health as real / HealthPerHeart as real)
  }

  /** A health in 0..100 shows 0 to 5 hearts: none only at 0, all five above 80. */
  lemma HeartsInRange(health: int)
    requires 0 <= health <= 100
    ensures 0 <= Hearts(health) <= HeartSlots
    ensures Hearts(health) == 0 <==> health == 0
    ensures Hearts(health) == HeartSlots <==> health > 80
  {
  }

  lemma HeartExamples()
    ensures Hearts(100) == 5 && Hearts(0) == 0 && Hearts(1) == 1 && Hearts(21) == 2
  {
  }

  /** Heart slot `i` (0..4) is drawn filled. */
  predicate HeartFilled(health: int, i: int) {
    i < Hearts(health)
  }

  /** The filled slots are a prefix of the five: filling is monotone in health. */
  lemma HeartsMonotone(h1: int, h2: int, i: int)
    requires h1 <= h2 && HeartFilled(h1, i)
    ensures HeartFilled(h2, i)
  {
  }

  /** `Math.floor(xp / 100) + 1`. */
  function Level(xp: int): (l: int)
    ensures (l - 1) * XpPerLevel <= xp < l * XpPerLevel
  {
    xp / XpPerLevel + 1
  }

  /** JavaScript's `%`, whose result takes the sign of the dividend. */
  function JsRem(a: int, b: int): (r: int)
    requires b > 0
    ensures a >= 0 ==> 0 <= r < b
    ensures a < 0 ==> -b < r <= 0
    ensures a == (if a >= 0 then a / b else -((-a) / b)) * b + r
  {
    if a >= 0 then a % b else -((-a) % b)
  }

  /** The XP bar's width in percent: `Math.min(100, xp % 100)`. */
  function XpBar(xp: int): (w: int)
    ensures xp >= 0 ==> 0 <= w < XpPerLevel
    ensures xp < 0 ==> w <= 0
  {
    MinInt(100, JsRem(xp, XpPerLevel))
  }

  /** For non-negative XP the level and the bar together give back the XP. */
  lemma LevelAndBarDecomposeXp(xp: int)
    requires xp >= 0
    ensures (Level(xp) - 1) * XpPerLevel + XpBar(xp) == xp
  {
  }

  /** A negative XP (never produced by the pet logic) would show a negative bar width. */
  lemma NegativeXpBar()
    ensures XpBar(-150) == -50 && Level(-150) == -1
  {
  }

  datatype Sprite = EggSprite | BabySprite | TeenSprite | AdultSprite

  /** ASCII lowercasing; the stage names are ASCII. */
  function ToLower(s: string): (r: string)
    ensures |r| == |s|
    ensures forall i :: 0 <= i < |s| ==> r[i] == (if 'A' <= s[i] <= 'Z' then (s[i] as int + 32) as char else s[i])
  {
    if |s| == 0 then ""
    else [if 'A' <= s[0] <= 'Z' then (s[0] as int + 32) as char else s[0]] + ToLower(s[1..])
  }

  /** The sprite for a stage name, matched case-insensitively; other names show none. */
  function SpriteFor(stage: string): (r: Option<Sprite>)
    ensures r == Some(EggSprite) <==> ToLower(stage) == "egg"
    ensures r == Some(BabySprite) <==> ToLower(stage) == "baby"
    ensures r == Some(TeenSprite) <==> ToLower(stage) == "teen"
    ensures r == Some(AdultSprite) <==> ToLower(stage) == "adult"
  {
    var lower := ToLower(stage);
    if lower == "egg" then Some(EggSprite)
    else if lower == "baby" then Some(BabySprite)
    else if lower == "teen" then Some(TeenSprite)
    else if lower == "adult" then Some(AdultSprite)
    else None
  }

  /** The pet logic's stages egg, baby and adult have sprites. */
  lemma PetLogicStagesSprites()
    ensures SpriteFor("egg") == Some(EggSprite)
    ensures SpriteFor("baby") == Some(BabySprite)
    ensures SpriteFor("adult") == Some(AdultSprite)
  {
    LowerUnchanged("egg");
    LowerUnchanged("baby");
    LowerUnchanged("adult");
  }

  /** The pet logic's "child" stage matches no sprite, so a child pet shows nothing. */
  lemma ChildStageHasNoSprite()
    ensures SpriteFor("child").None?
  {
    LowerUnchanged("child");
  }

  /** Matching ignores case: "Egg" (as in the type declarations) shows the egg. */
  lemma CapitalisedStage()
    ensures SpriteFor("Egg") == Some(EggSprite)
  {
    var r := ToLower("Egg");
    assert r[0] == 'e' && r[1] == 'g' && r[2] == 'g';
    assert r == "egg";
  }

  lemma LowerUnchanged(s: string)
    requires forall i :: 0 <= i < |s| ==> !('A' <= s[i] <= 'Z')
    ensures ToLower(s) == s
  {
  }
}
