/**
 * actions/generateDeck.ts: the difficulty level and its prompt guidance,
 * cleaning of the model's reply, and the rows inserted for a new deck.
 */
module GenerateDeck {
  import opened Wrappers
  import opened Text
  import Srs

  /** The five guidance bands of the prompt. */
  datatype Guidance = AbsoluteBeginner | Beginner | Intermediate | Advanced | Expert

  function GuidanceRank(g: Guidance): nat {
    match g
    case AbsoluteBeginner => 0
    case Beginner => 1
    case Intermediate => 2
    case Advanced => 3
    case Expert => 4
  }

  /** `getDifficultyGuidance`: the band of a 1-10 level (bounds inclusive). */
  function GuidanceFor(level: int): (g: Guidance)
    ensures g == AbsoluteBeginner <==> level <= 2
    ensures g == Beginner <==> 2 < level <= 4
    ensures g == Intermediate <==> 4 < level <= 6
    ensures g == Advanced <==> 6 < level <= 8
    ensures g == Expert <==> 8 < level
  {
    if level <= 2 then AbsoluteBeginner
    else if level <= 4 then Beginner
    else if level <= 6 then Intermediate
    else if level <= 8 then Advanced
    else Expert
  }

  /** A harder level never gets gentler guidance. */
  lemma GuidanceMonotone(a: int, b: int)
    requires a <= b
    ensures GuidanceRank(GuidanceFor(a)) <= GuidanceRank(GuidanceFor(b))
  {
  }

  /** The label-to-level map used when no numeric difficulty is supplied. */
  function LabelLevel(labelName: string): (level: int)
    ensures labelName == "Expert" ==> level == 9
    ensures labelName == "Advanced" ==> level == 7
    ensures labelName == "Intermediate" ==> level == 5
    ensures labelName == "Elementary" ==> level == 3
    ensures labelName !in {"Expert", "Advanced", "Intermediate", "Elementary"} ==> level == 2
  {
    if labelName == "Expert" then 9
    else if labelName == "Advanced" then 7
    else if labelName == "Intermediate" then 5
    else if labelName == "Elementary" then 3
    else 2
  }

  /** `numericDifficulty ?? map(difficulty)`: a supplied number wins, even 0. */
  function DifficultyLevel(numeric: Option<int>, labelName: string): (level: int)
    ensures numeric.Some? ==> level == numeric.value
    ensures numeric.None? ==> level in {2, 3, 5, 7, 9}
  {
    if numeric.Some? then numeric.value else LabelLevel(labelName)
  }

  /** Without a number, each label lands in its own guidance band; Elementary lands in Beginner and unknown labels (including the default "Beginner") in Absolute Beginner. */
  lemma LabelsLandInTheirBand()
    ensures GuidanceFor(DifficultyLevel(None, "Expert")) == Expert
    ensures GuidanceFor(DifficultyLevel(None, "Advanced")) == Advanced
    ensures GuidanceFor(DifficultyLevel(None, "Intermediate")) == Intermediate
    ensures GuidanceFor(DifficultyLevel(None, "Elementary")) == Beginner
    ensures GuidanceFor(DifficultyLevel(None, "Beginner")) == AbsoluteBeginner
  {
  }

  /** One generated flashcard, as parsed from the reply. */
  datatype CardItem = CardItem(question: string, answer: string, explanation: string, cardType: string)

  /** One row for the cards table. */
  datatype CardRow = CardRow(deckId: string, front: string, back: string, content: CardItem,
                             cardType: string, interval: int, easeFactor: real, difficulty: int)

  const NewInterval: int := 0
  const NewEase: real := 2.5

  /** `cardsData.map(...)`: one new card per parsed item, in order. */
  function CardRows(deckId: string, items: seq<CardItem>, level: int): (rows: seq<CardRow>)
    ensures |rows| == |items|
    ensures forall i :: 0 <= i < |rows| ==>
              && rows[i].deckId == deckId && rows[i].content == items[i]
              && rows[i].front == items[i].question && rows[i].back == items[i].answer
              && rows[i].cardType == items[i].cardType
              && rows[i].interval == NewInterval && rows[i].easeFactor == NewEase
              && rows[i].difficulty == level
  {
    seq(|items|, i requires 0 <= i < |items| =>
      CardRow(deckId, items[i].question, items[i].answer, items[i], items[i].cardType, NewInterval, NewEase, level))
  }

  /** A new card is first scheduled one day out, whatever the first grade, and keeps an ease above the floor. */
  lemma NewCardsStartTheSchedule(row: CardRow, grade: int, today: int)
    requires row.interval == NewInterval && row.easeFactor == NewEase
    ensures var r := Srs.CalculateReview(row.interval, row.easeFactor, grade, today);
            r.interval == 1 && r.nextReview == today + 1 && r.easeFactor >= Srs.MinEase
  {
  }

  /** The outcome reported to the caller once the API key is known to be set. */
  datatype DeckOutcome = Created(deckId: string, rows: seq<CardRow>) | Failed(error: string)

  const KeyError: string := "XAI_API_KEY is not defined"
  const ParseError: string := "Failed to parse generated flashcards"
  const RequestError: string := "xAI API request failed: "
  const DeckError: string := "Failed to create deck: "
  const CardsError: string := "Failed to create cards: "

  /**
   * `generateDeck` with its collaborators as parameters: the model reply
   * (`Failure(statusText)` when the request fails), the JSON parser, and the
   * deck and card inserts (`Failure(message)` when they fail). A missing key
   * is thrown (`Failure`); every later failure is reported as `Failed`.
   */
  function GenerateDeckOutcome(apiKeyDefined: bool, numeric: Option<int>, labelName: string,
                               reply: Result<string, string>, parse: string -> Option<seq<CardItem>>,
                               deckInsert: Result<string, string>, cardsInsert: Result<(), string>)
    : (r: Result<DeckOutcome, string>)
    ensures !apiKeyDefined <==> r == Failure(KeyError)
    ensures apiKeyDefined ==> r.Success?
    ensures r.Success? && r.value.Created? ==>
              && reply.Success? && parse(StripFences(reply.value)).Some?
              && deckInsert == Success(r.value.deckId) && cardsInsert.Success?
              && r.value.rows == CardRows(r.value.deckId, parse(StripFences(reply.value)).value,
                                          DifficultyLevel(numeric, labelName))
    ensures apiKeyDefined && reply.Failure? ==> r == Success(Failed(RequestError + reply.error))
    ensures apiKeyDefined && reply.Success? && parse(StripFences(reply.value)).None? ==>
              r == Success(Failed(ParseError))
    ensures apiKeyDefined && reply.Success? && parse(StripFences(reply.value)).Some? ==>
              r == (if deckInsert.Failure? then Success(Failed(DeckError + deckInsert.error))
                    else if cardsInsert.Failure? then Success(Failed(CardsError + cardsInsert.error))
                    else Success(Created(deckInsert.value, CardRows(deckInsert.value, parse(StripFences(reply.value)).value,
                                                                   DifficultyLevel(numeric, labelName)))))
  {
    if !apiKeyDefined then Failure(KeyError)
    else
      var level := DifficultyLevel(numeric, labelName);
      if reply.Failure? then Success(Failed(RequestError + reply.error))
      else
        var parsed := parse(StripFences(reply.value));
        if parsed.None? then Success(Failed(ParseError))
        else if deckInsert.Failure? then Success(Failed(DeckError + deckInsert.error))
        else if cardsInsert.Failure? then Success(Failed(CardsError + cardsInsert.error))
        else Success(Created(deckInsert.value, CardRows(deckInsert.value, parsed.value, level)))
  }
}
