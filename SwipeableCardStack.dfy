/**
 * components/SwipeableCardStack.tsx: the swipe-to-grade classifier and the
 * deck's advance and prefetch rules.
 */
module SwipeableCardStack {
  import opened Wrappers
  import SubmitReview

  const DragThreshold: real := 100.0
  /** The prefetch of the next deck starts when this many cards remain. */
  const PrefetchAt: int := 3
  const DefaultDifficulty: int := 5

  /** `handleDragEnd`: right 5 (Easy), left 3 (Hard), up 4 (Good), down 1 (Again); otherwise snap back. */
  function ClassifyDrag(x: real, y: real): (g: Option<int>)
    ensures x > DragThreshold ==> g == Some(5)
    ensures x < -DragThreshold ==> g == Some(3)
    ensures -DragThreshold <= x <= DragThreshold && y < -DragThreshold ==> g == Some(4)
    ensures -DragThreshold <= x <= DragThreshold && y > DragThreshold ==> g == Some(1)
  {
    if x > DragThreshold then Some(5)
    else if x < -DragThreshold then Some(3)
    else if y < -DragThreshold then Some(4)
    else if y > DragThreshold then Some(1)
    else None
  }

  /** A drag snaps back exactly when it stays within 100 on both axes, and it never yields grade 2. */
  lemma ClassifyDragCases(x: real, y: real)
    ensures ClassifyDrag(x, y).None? <==> -DragThreshold <= x <= DragThreshold && -DragThreshold <= y <= DragThreshold
    ensures ClassifyDrag(x, y).Some? ==> ClassifyDrag(x, y).value in {1, 3, 4, 5}
  {
  }

  /** A diagonal drag past both thresholds is graded by its horizontal direction. */
  lemma HorizontalWins(x: real, y: real)
    requires x < -DragThreshold || x > DragThreshold
    ensures ClassifyDrag(x, y) == ClassifyDrag(x, 0.0)
  {
  }

  /** A card of the stack: its id, stored difficulty and deck topic. */
  datatype StackCard = StackCard(id: string, difficulty: Option<int>, deckTopic: Option<string>)

  /** A review submitted by the stack. */
  datatype SwipeReview = SwipeReview(cardId: string, grade: int, topic: string, responseTimeMs: int,
                                     wasFlipped: bool, cardDifficulty: int)

  /** `activeCard.difficulty ?? 5`. */
  function SwipeDifficulty(d: Option<int>): (r: int)
    ensures d.Some? ==> r == d.value
    ensures d.None? ==> r == DefaultDifficulty
  {
    d.GetOr(DefaultDifficulty)
  }

  /** The stack always sends a difficulty, and it scores a card just as the server's own fallback would. */
  lemma SwipeDifficultyMatchesServerFallback(d: Option<int>)
    ensures SubmitReview.ScoringDifficulty(Some(SwipeDifficulty(d) as real), d) == SubmitReview.ScoringDifficulty(None, d)
  {
  }

  /** `activeCard?.decks?.topic || currentTopic || 'Learning'`. */
  function StackTopic(card: StackCard, currentTopic: Option<string>): (t: string)
    ensures t != ""
    ensures card.deckTopic.Some? && card.deckTopic.value != "" ==> t == card.deckTopic.value
    ensures (card.deckTopic.None? || card.deckTopic.value == "") && currentTopic.Some? && currentTopic.value != "" ==>
              t == currentTopic.value
    ensures (card.deckTopic.None? || card.deckTopic.value == "") && (currentTopic.None? || currentTopic.value == "") ==>
              t == "Learning"
  {
    if card.deckTopic.Some? && card.deckTopic.value != "" then card.deckTopic.value
    else if currentTopic.Some? && currentTopic.value != "" then currentTopic.value
    else "Learning"
  }

  /** The prefetch effect's test. */
  predicate PrefetchFires(cardCount: int, activeIndex: int, prefetching: bool) {
    cardCount - activeIndex == PrefetchAt && !prefetching
  }

  class CardStack {
    const cards: seq<StackCard>
    const currentTopic: Option<string>
    var activeIndex: nat
    var isFlipped: bool
    var wasFlipped: bool
    var generating: bool
    var prefetching: bool
    /** Reviews submitted, in order. */
    var submitted: seq<SwipeReview>
    /** Calls to the next-deck generator, by the prefetch or at the end of the deck. */
    var nextDeckRequests: nat

    predicate Valid()
      reads this
    {
      && activeIndex <= |cards|
      && (|cards| > 0 ==> activeIndex < |cards|)
      && !wasFlipped
      && (forall i :: 0 <= i < |submitted| ==> !submitted[i].wasFlipped && submitted[i].grade in {1, 3, 4, 5})
    }

    constructor (cards: seq<StackCard>, currentTopic: Option<string>)
      ensures Valid() && this.cards == cards && this.currentTopic == currentTopic
      ensures activeIndex == 0 && !isFlipped && !generating && !prefetching && submitted == [] && nextDeckRequests == 0
    {
      this.cards := cards;
      this.currentTopic := currentTopic;
      activeIndex, isFlipped, wasFlipped, generating, prefetching := 0, false, false, false, false;
      submitted, nextDeckRequests := [], 0;
    }

    /** The card's own flip handler toggles the face only; it never records a flip. */
    method Flip()
      requires Valid()
      modifies this
      ensures Valid() && isFlipped == !old(isFlipped)
      ensures wasFlipped == old(wasFlipped) && submitted == old(submitted) && activeIndex == old(activeIndex)
      ensures generating == old(generating) && prefetching == old(prefetching) && nextDeckRequests == old(nextDeckRequests)
    {
      isFlipped := !isFlipped;
    }

    /** The prefetch effect: start a next-deck request when exactly three cards remain and none is in flight. */
    method PrefetchEffect()
      requires Valid()
      modifies this
      ensures Valid()
      ensures PrefetchFires(|cards|, old(activeIndex), old(prefetching)) ==>
                && prefetching && nextDeckRequests == old(nextDeckRequests) + 1
                && isFlipped == old(isFlipped) && wasFlipped == old(wasFlipped) && generating == old(generating)
      ensures !PrefetchFires(|cards|, old(activeIndex), old(prefetching)) ==> unchanged(this)
      ensures activeIndex == old(activeIndex) && submitted == old(submitted)
    {
      if |cards| - activeIndex == PrefetchAt && !prefetching {
        prefetching := true;
        nextDeckRequests := nextDeckRequests + 1;
      }
    }

    /** The prefetch request resolved. */
    method PrefetchDone()
      requires Valid()
      modifies this
      ensures Valid() && !prefetching
      ensures activeIndex == old(activeIndex) && nextDeckRequests == old(nextDeckRequests) && submitted == old(submitted)
      ensures isFlipped == old(isFlipped) && wasFlipped == old(wasFlipped) && generating == old(generating)
    {
      prefetching := false;
    }

    /** `completeSwipe`: submit the review, then advance or, on the last card, request the next deck. */
    method CompleteSwipe(grade: int, responseTimeMs: int)
      requires Valid() && grade in {1, 3, 4, 5}
      modifies this
      ensures Valid()
      ensures |cards| == 0 ==> unchanged(this)
      ensures |cards| > 0 ==>
                var card := cards[old(activeIndex)];
                && submitted == old(submitted) + [SwipeReview(card.id, grade, StackTopic(card, currentTopic), responseTimeMs,
                                                              false, SwipeDifficulty(card.difficulty))]
                && !isFlipped && prefetching == old(prefetching)
                && (old(activeIndex) + 1 < |cards| ==>
                      activeIndex == old(activeIndex) + 1 && nextDeckRequests == old(nextDeckRequests) && generating == old(generating))
                && (old(activeIndex) + 1 == |cards| ==>
                      activeIndex == old(activeIndex) && generating && nextDeckRequests == old(nextDeckRequests) + 1)
    {
      if activeIndex >= |cards| {
        return;
      }
      var card := cards[activeIndex];
      submitted := submitted + [SwipeReview(card.id, grade, StackTopic(card, currentTopic), responseTimeMs,
                                            wasFlipped, SwipeDifficulty(card.difficulty))];
      isFlipped := false;
      var nextIndex := activeIndex + 1;
      if nextIndex < |cards| {
        activeIndex := nextIndex;
        wasFlipped := false;
      } else {
        generating := true;
        nextDeckRequests := nextDeckRequests + 1;
      }
    }

    /** `handleDragEnd`: a classified drag completes the swipe; any other drag changes nothing. */
    method HandleDragEnd(x: real, y: real, responseTimeMs: int)
      requires Valid()
      modifies this
      ensures Valid()
      ensures ClassifyDrag(x, y).None? ==> unchanged(this)
      ensures ClassifyDrag(x, y).Some? && |cards| == 0 ==> unchanged(this)
      ensures ClassifyDrag(x, y).Some? && |cards| > 0 ==>
                var card := cards[old(activeIndex)];
                && submitted == old(submitted) + [SwipeReview(card.id, ClassifyDrag(x, y).value, StackTopic(card, currentTopic),
                                                              responseTimeMs, false, SwipeDifficulty(card.difficulty))]
                && !isFlipped && prefetching == old(prefetching)
                && (old(activeIndex) + 1 < |cards| ==>
                      activeIndex == old(activeIndex) + 1 && nextDeckRequests == old(nextDeckRequests) && generating == old(generating))
                && (old(activeIndex) + 1 == |cards| ==>
                      activeIndex == old(activeIndex) && generating && nextDeckRequests == old(nextDeckRequests) + 1)
    {
      var g := ClassifyDrag(x, y);
      ClassifyDragCases(x, y);
      if g.Some? {
        CompleteSwipe(g.value, responseTimeMs);
      }
    }
  }

  /** When the prefetch resolves while the same card is still showing, the effect fires a second request. */
  method PrefetchRefiresOnSameCard() returns (requests: nat)
    ensures requests == 2
  {
    var c := new CardStack([StackCard("a", None, None), StackCard("b", None, None), StackCard("c", None, None)], None);
    c.PrefetchEffect();
    assert c.nextDeckRequests == 1;
    c.PrefetchDone();
    c.PrefetchEffect();
    requests := c.nextDeckRequests;
  }
}
