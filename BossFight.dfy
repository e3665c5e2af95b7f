/**
 * actions/bossFight.ts: the boss encounter is built from the user's "leech"
 * cards (lowest ease factors in a topic), and its outcome rewards or
 * penalises the pet.
 */
module BossFight {
  import opened Wrappers
  import opened Numeric
  import opened Text
  import opened Profiles

  /** The leech query's upper bound on ease, exclusive. */
  const LeechEase: real := 2.3
  const MaxLeeches: nat := 5
  const MinLeeches: nat := 3
  const WinXp: int := 100
  const WinCoins: int := 50
  const FullHealth: int := 100
  const LossHealth: int := 20

  const NotEnoughMessage: string := "Not enough 'Difficult' cards yet to spawn a boss. Keep studying!"
  const QueryError: string := "Failed to retrieve boss encounter data"
  const KeyError: string := "XAI_API_KEY not defined"
  const AiError: string := "The Boss refused to appear (AI Error)"

  /** A card joined with its deck, as the leech query sees it; absent content fields are `None`. */
  datatype BossCard = BossCard(deckUserId: string, deckTopic: string,
                               question: Option<string>, answer: Option<string>, easeFactor: real)

  /** A question generated for the fight. */
  datatype BossQuestion = BossQuestion(question: string, options: seq<string>, answer: string, explanation: string)

  datatype Encounter = Unavailable(message: string) | Available(concepts: string, questions: seq<BossQuestion>)

  predicate IsLeech(c: BossCard, userId: string, topic: string) {
    c.deckUserId == userId && c.deckTopic == topic && c.easeFactor < LeechEase
  }

  /** The cards that pass the query's filters, in their stored order. */
  function Eligible(cards: seq<BossCard>, userId: string, topic: string): (r: seq<BossCard>)
    ensures forall i :: 0 <= i < |r| ==> IsLeech(r[i], userId, topic)
    ensures multiset(r) <= multiset(cards)
    ensures forall c :: c in cards && IsLeech(c, userId, topic) ==> c in r
    ensures forall c :: multiset(r)[c] == if IsLeech(c, userId, topic) then multiset(cards)[c] else 0
  {
    if |cards| == 0 then []
    else
      var rest := Eligible(cards[1..], userId, topic);
      EligibleStep(cards, rest, userId, topic);
      if IsLeech(cards[0], userId, topic) then [cards[0]] + rest else rest
  }

  /** The filter's recursive step: keep the head exactly when it is a leech. */
  lemma EligibleStep(cards: seq<BossCard>, rest: seq<BossCard>, userId: string, topic: string)
    requires |cards| > 0
    requires forall i :: 0 <= i < |rest| ==> IsLeech(rest[i], userId, topic)
    requires multiset(rest) <= multiset(cards[1..])
    requires forall c :: c in cards[1..] && IsLeech(c, userId, topic) ==> c in rest
    requires forall c :: multiset(rest)[c] == if IsLeech(c, userId, topic) then multiset(cards[1..])[c] else 0
    ensures var r := if IsLeech(cards[0], userId, topic) then [cards[0]] + rest else rest;
            && (forall i :: 0 <= i < |r| ==> IsLeech(r[i], userId, topic))
            && multiset(r) <= multiset(cards)
            && (forall c :: c in cards && IsLeech(c, userId, topic) ==> c in r)
            && (forall c :: multiset(r)[c] == if IsLeech(c, userId, topic) then multiset(cards)[c] else 0)
  {
    assert cards == [cards[0]] + cards[1..];
  }

  /** Filtering distributes over concatenation: the query's order is the stored order. */
  lemma {:induction false} EligibleAppend(a: seq<BossCard>, b: seq<BossCard>, userId: string, topic: string)
    ensures Eligible(a + b, userId, topic) == Eligible(a, userId, topic) + Eligible(b, userId, topic)
  {
    if |a| == 0 {
      assert a + b == b;
    } else {
      assert (a + b)[1..] == a[1..] + b;
      EligibleAppend(a[1..], b, userId, topic);
    }
  }

  predicate SortedByEase(s: seq<BossCard>) {
    forall i, j :: 0 <= i < j < |s| ==> s[i].easeFactor <= s[j].easeFactor
  }

  /** Insert one card into an ease-sorted sequence. */
  function Insert(c: BossCard, s: seq<BossCard>): (r: seq<BossCard>)
    requires SortedByEase(s)
    ensures SortedByEase(r)
    ensures multiset(r) == multiset(s) + multiset{c}
    ensures |r| == |s| + 1
    ensures forall k :: 0 <= k < |r| ==> r[k] == c || r[k] in s
  {
    if |s| == 0 then [c]
    else if c.easeFactor <= s[0].easeFactor then
      InsertFront(c, s);
      [c] + s
    else
      SortedTail(s);
      var rest := Insert(c, s[1..]);
      InsertBehind(c, s, rest);
      [s[0]] + rest
  }

  /** The tail of a sorted sequence is sorted. */
  lemma SortedTail(s: seq<BossCard>)
    requires |s| > 0 && SortedByEase(s)
    ensures SortedByEase(s[1..])
  {
  }

  /** A card no harder than the head goes in front. */
  lemma InsertFront(c: BossCard, s: seq<BossCard>)
    requires |s| > 0 && SortedByEase(s) && c.easeFactor <= s[0].easeFactor
    ensures SortedByEase([c] + s)
    ensures forall k :: 0 <= k < |s| + 1 ==> ([c] + s)[k] == c || ([c] + s)[k] in s
  {
    forall k | 0 <= k < |s| + 1 ensures ([c] + s)[k] == c || ([c] + s)[k] in s {
      if k > 0 {
        assert ([c] + s)[k] == s[k - 1];
      }
    }
  }

  /** A card harder than the head goes into the tail, behind the head. */
  lemma InsertBehind(c: BossCard, s: seq<BossCard>, rest: seq<BossCard>)
    requires |s| > 0 && SortedByEase(s) && s[0].easeFactor < c.easeFactor
    requires SortedByEase(rest) && multiset(rest) == multiset(s[1..]) + multiset{c} && |rest| == |s|
    requires forall k :: 0 <= k < |rest| ==> rest[k] == c || rest[k] in s[1..]
    ensures SortedByEase([s[0]] + rest)
    ensures multiset([s[0]] + rest) == multiset(s) + multiset{c}
    ensures forall k :: 0 <= k < |rest| + 1 ==> ([s[0]] + rest)[k] == c || ([s[0]] + rest)[k] in s
  {
    assert s == [s[0]] + s[1..];
    LowerBoundCarries(s[0].easeFactor, c, s[1..], rest);
    ConsSorted(s[0], rest);
    ConsDrawn(c, s, rest);
  }

  /** Putting a card with the lowest ease in front keeps a sorted sequence sorted. */
  lemma ConsSorted(x: BossCard, rest: seq<BossCard>)
    requires SortedByEase(rest) && forall k :: 0 <= k < |rest| ==> x.easeFactor <= rest[k].easeFactor
    ensures SortedByEase([x] + rest)
  {
  }

  /** Cards drawn from `c` and the tail of `s`, behind the head of `s`, are drawn from `c` and `s`. */
  lemma ConsDrawn(c: BossCard, s: seq<BossCard>, rest: seq<BossCard>)
    requires |s| > 0 && forall k :: 0 <= k < |rest| ==> rest[k] == c || rest[k] in s[1..]
    ensures forall k :: 0 <= k < |rest| + 1 ==> ([s[0]] + rest)[k] == c || ([s[0]] + rest)[k] in s
  {
    assert s == [s[0]] + s[1..];
    forall k | 0 <= k < |rest| + 1 ensures ([s[0]] + rest)[k] == c || ([s[0]] + rest)[k] in s {
      if k > 0 {
        assert ([s[0]] + rest)[k] == rest[k - 1];
      }
    }
  }

  /** A lower bound on a card and on a sequence bounds everything drawn from them. */
  lemma LowerBoundCarries(x: real, c: BossCard, s: seq<BossCard>, drawn: seq<BossCard>)
    requires x <= c.easeFactor && forall j :: 0 <= j < |s| ==> x <= s[j].easeFactor
    requires forall k :: 0 <= k < |drawn| ==> drawn[k] == c || drawn[k] in s
    ensures forall k :: 0 <= k < |drawn| ==> x <= drawn[k].easeFactor
  {
    forall k | 0 <= k < |drawn| ensures x <= drawn[k].easeFactor {
      if drawn[k] != c {
        var j :| 0 <= j < |s| && s[j] == drawn[k];
      }
    }
  }

  /** `.order('ease_factor', { ascending: true })`. */
  function SortByEase(s: seq<BossCard>): (r: seq<BossCard>)
    ensures SortedByEase(r)
    ensures multiset(r) == multiset(s)
    ensures |r| == |s|
  {
    if |s| == 0 then []
    else
      assert s == [s[0]] + s[1..];
      Insert(s[0], SortByEase(s[1..]))
  }

  /** The leeches: eligible cards, easiest-to-forget first, at most five. */
  function SelectLeeches(cards: seq<BossCard>, userId: string, topic: string): (r: seq<BossCard>)
    ensures |r| == MinInt(MaxLeeches, |Eligible(cards, userId, topic)|)
    ensures SortedByEase(r)
    ensures forall i :: 0 <= i < |r| ==> IsLeech(r[i], userId, topic)
    ensures multiset(r) <= multiset(cards)
  {
    var eligible := Eligible(cards, userId, topic);
    var sorted := SortByEase(eligible);
    var n := MinInt(MaxLeeches, |sorted|);
    LeechPrefix(eligible, sorted, n, userId, topic);
    sorted[..n]
  }

  /** A prefix of a sorted rearrangement of leeches is sorted, holds only leeches, and is drawn from them. */
  lemma LeechPrefix(eligible: seq<BossCard>, sorted: seq<BossCard>, n: nat, userId: string, topic: string)
    requires multiset(sorted) == multiset(eligible) && SortedByEase(sorted) && n <= |sorted|
    requires forall i :: 0 <= i < |eligible| ==> IsLeech(eligible[i], userId, topic)
    ensures SortedByEase(sorted[..n])
    ensures forall i :: 0 <= i < n ==> IsLeech(sorted[..n][i], userId, topic)
    ensures multiset(sorted[..n]) <= multiset(eligible)
  {
    assert sorted == sorted[..n] + sorted[n..];
    forall i | 0 <= i < n ensures IsLeech(sorted[..n][i], userId, topic) {
      assert sorted[i] in multiset(eligible);
      var j :| 0 <= j < |eligible| && eligible[j] == sorted[i];
    }
  }

  /** No eligible card left out of the selection has a lower ease than a selected one. */
  lemma LeechesAreTheWorst(cards: seq<BossCard>, userId: string, topic: string)
    ensures var sel := SelectLeeches(cards, userId, topic);
            forall c, i :: c in multiset(Eligible(cards, userId, topic)) - multiset(sel) && 0 <= i < |sel| ==>
              sel[i].easeFactor <= c.easeFactor
  {
    var sorted := SortByEase(Eligible(cards, userId, topic));
    var n := MinInt(MaxLeeches, |sorted|);
    assert SelectLeeches(cards, userId, topic) == sorted[..n];
    PrefixIsLowest(sorted, n);
  }

  lemma PrefixIsLowest(sorted: seq<BossCard>, n: nat)
    requires SortedByEase(sorted) && n <= |sorted|
    ensures forall c, i :: c in multiset(sorted) - multiset(sorted[..n]) && 0 <= i < n ==>
              sorted[i].easeFactor <= c.easeFactor
  {
    var rest := sorted[n..];
    assert sorted == sorted[..n] + rest;
    assert multiset(sorted) - multiset(sorted[..n]) == multiset(rest);
    forall c: BossCard, i | c in multiset(rest) && 0 <= i < n
      ensures sorted[i].easeFactor <= c.easeFactor
    {
      var k :| 0 <= k < |rest| && rest[k] == c;
      assert sorted[n + k] == c;
    }
  }

  /** `content?.x || 'Unknown'`: a missing or empty field reads as "Unknown". */
  function FieldOrUnknown(f: Option<string>): (r: string)
    ensures r == "Unknown" <==> f.None? || f.value == "" || f.value == "Unknown"
    ensures f.Some? && f.value != "" ==> r == f.value
  {
    if f.Some? && f.value != "" then f.value else "Unknown"
  }

  /** One line of the weak-concept prompt. */
  function ConceptLine(c: BossCard): string {
    "Q: " + FieldOrUnknown(c.question) + " | A: " + FieldOrUnknown(c.answer)
  }

  function ConceptLines(leeches: seq<BossCard>): (r: seq<string>)
    ensures |r| == |leeches|
    ensures forall i :: 0 <= i < |r| ==> r[i] == ConceptLine(leeches[i])
  {
    seq(|leeches|, i requires 0 <= i < |leeches| => ConceptLine(leeches[i]))
  }

  /** The prompt text: one concept line per leech, separated by newlines. */
  function Concepts(leeches: seq<BossCard>): string {
    Join(ConceptLines(leeches), "\n")
  }

  predicate NoNewline(f: Option<string>) {
    f.Some? ==> '\n' !in f.value
  }

  /** When no card text contains a newline, the prompt splits back into exactly one line per leech. */
  lemma OneLinePerLeech(leeches: seq<BossCard>)
    requires |leeches| >= 1
    requires forall i :: 0 <= i < |leeches| ==> NoNewline(leeches[i].question) && NoNewline(leeches[i].answer)
    ensures var lines := Split(Concepts(leeches), '\n');
            |lines| == |leeches| && forall i :: 0 <= i < |lines| ==> lines[i] == ConceptLine(leeches[i])
  {
    var lines := ConceptLines(leeches);
    forall k | 0 <= k < |lines| ensures '\n' !in lines[k] {
      var c := leeches[k];
      assert lines[k] == "Q: " + FieldOrUnknown(c.question) + " | A: " + FieldOrUnknown(c.answer);
    }
    assert "\n" == ['\n'];
    SplitJoin(lines, '\n');
  }

  /**
   * `generateBossEncounter` with its collaborators as parameters: whether the
   * card query fails, whether the API key is set, and the parsed model reply
   * (`None` when the request or the parse fails).
   */
  function GenerateBossEncounter(cards: seq<BossCard>, userId: string, topic: string, queryFails: bool,
                                 apiKeyDefined: bool, reply: Option<seq<BossQuestion>>): (r: Result<Encounter, string>)
    ensures queryFails ==> r == Failure(QueryError)
    ensures !queryFails && |SelectLeeches(cards, userId, topic)| < MinLeeches ==> r == Success(Unavailable(NotEnoughMessage))
    ensures r.Success? && r.value.Available? ==>
              && !queryFails && apiKeyDefined && reply.Some?
              && |SelectLeeches(cards, userId, topic)| >= MinLeeches
              && r.value.concepts == Concepts(SelectLeeches(cards, userId, topic))
              && r.value.questions == reply.value
    ensures r.Failure? && r.error == KeyError ==> !apiKeyDefined
    ensures !queryFails && |SelectLeeches(cards, userId, topic)| >= MinLeeches && !apiKeyDefined ==> r == Failure(KeyError)
    ensures !queryFails && |SelectLeeches(cards, userId, topic)| >= MinLeeches && apiKeyDefined ==>
              r == (if reply.Some? then Success(Available(Concepts(SelectLeeches(cards, userId, topic)), reply.value))
                    else Failure(AiError))
  {
    if queryFails then Failure(QueryError)
    else
      var leeches := SelectLeeches(cards, userId, topic);
      if |leeches| < MinLeeches then Success(Unavailable(NotEnoughMessage))
      else if !apiKeyDefined then Failure(KeyError)
      else if reply.None? then Failure(AiError)
      else Success(Available(Concepts(leeches), reply.value))
  }

  /** An encounter needs at least three eligible cards, whatever else happens. */
  lemma EncounterNeedsThreeLeeches(cards: seq<BossCard>, userId: string, topic: string, queryFails: bool,
                                   apiKeyDefined: bool, reply: Option<seq<BossQuestion>>)
    requires GenerateBossEncounter(cards, userId, topic, queryFails, apiKeyDefined, reply).Success?
    requires GenerateBossEncounter(cards, userId, topic, queryFails, apiKeyDefined, reply).value.Available?
    ensures |Eligible(cards, userId, topic)| >= MinLeeches
  {
  }

  datatype BossOutcome = Victory | Defeat | ProfileNotFound

  /** The stats after the fight: a win gives +100 XP, +50 coins and full health; a loss costs 20 health. */
  function FightStats(passed: bool, xp: int, coins: int, health: int): (r: (int, int, int))
    ensures passed ==> r == (xp + WinXp, coins + WinCoins, FullHealth)
    ensures !passed ==> r.0 == xp && r.1 == coins && 0 <= r.2 && r.2 <= MaxInt(health, 0)
    ensures !passed && health >= LossHealth ==> r.2 == health - LossHealth
    ensures !passed && health < LossHealth ==> r.2 == 0
  {
    if passed then (xp + WinXp, coins + WinCoins, FullHealth)
    else (xp, coins, MaxInt(0, health - LossHealth))
  }

  /** `submitBossResult`: apply the reward or the penalty to the profile, if there is one. */
  method SubmitBossResult(profile: Profile?, passed: bool) returns (r: BossOutcome)
    modifies profile
    ensures profile == null ==> r == ProfileNotFound
    ensures profile != null ==>
              && r == (if passed then Victory else Defeat)
              && (profile.xp, profile.coins, profile.health)
                 == FightStats(passed, old(profile.xp), old(profile.coins), old(profile.health))
              && profile.stage == old(profile.stage) && profile.currentStreak == old(profile.currentStreak)
              && profile.lastStudyDay == old(profile.lastStudyDay)
  {
    if profile == null {
      return ProfileNotFound;
    }
    if passed {
      var newXp := profile.xp + WinXp;
      var newCoins := profile.coins + WinCoins;
      profile.xp, profile.coins, profile.health := newXp, newCoins, FullHealth;
      r := Victory;
    } else {
      var newHealth := MaxInt(0, profile.health - LossHealth);
      profile.health := newHealth;
      r := Defeat;
    }
  }

  /** The win and loss cases of the action tests: (100 XP, 50 coins, 50 health) wins to (200, 100, 100); 50 health loses to 30. */
  lemma BossResultExamples()
    ensures FightStats(true, 100, 50, 50) == (200, 100, 100)
    ensures FightStats(false, 0, 0, 50).2 == 30
  {
  }

  /** Five straight losses take a full-health pet to zero; a win then restores it. */
  lemma {:induction false} LossesThenWin()
    ensures var h1 := FightStats(false, 0, 0, FullHealth).2;
            var h5 := FightStats(false, 0, 0, FightStats(false, 0, 0, FightStats(false, 0, 0, FightStats(false, 0, 0, h1).2).2).2).2;
            h5 == 0 && FightStats(false, 0, 0, h5).2 == 0 && FightStats(true, 0, 0, h5).2 == FullHealth
  {
  }
}
