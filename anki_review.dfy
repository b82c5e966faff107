/**
 * The deck-study page: the session state it keeps between reruns and the
 * transition each button makes on it. The scheduler behind the rating buttons
 * (`update_card_progress`, `get_next_intervals`) is not part of this model; a
 * handler only reports which store calls it makes. `totalCards` is the size of
 * the selected deck, which the page reads from the store on every run.
 */
module AnkiReview {
  import opened Wrappers
  import opened FlashcardGenerator
  import opened ExplanationCache

  datatype Rating = Again | Hard | Good | Easy

  const Ratings: set<Rating> := {Again, Hard, Good, Easy}

  type DeckId = string

  /** The session counter: one entry per rating. */
  type Stats = map<Rating, nat>

  const FreshStats: Stats := map[Again := 0, Hard := 0, Good := 0, Easy := 0]

  /** The page's session state. */
  datatype Session = Session(
    currentCardIndex: int,
    showAnswer: bool,
    selectedCardset: Option<DeckId>,
    sessionStats: Stats,
    showEli5: bool,
    showMnemonic: bool)

  /** The calls into the store a handler makes, in order. */
  datatype StoreCall =
    | UpdateReviewStats(card: CardId)
    | UpdateCardProgress(card: CardId, rating: Rating)
    | SaveEli5(card: CardId, text: string)
    | SaveMnemonic(card: CardId, text: string)

  /** The state a new session starts in. */
  const InitialSession: Session := Session(0, false, None, FreshStats, false, false)

  predicate StatsShaped(s: Session) {
    s.sessionStats.Keys == Ratings
  }

  /**
   * What every transition keeps: the index points into the deck, the counter
   * has its four entries, and the two explanation panels are never both on.
   */
  predicate Valid(s: Session, totalCards: int) {
    0 <= s.currentCardIndex < totalCards && StatsShaped(s) && !(s.showEli5 && s.showMnemonic)
  }

  /** Cards rated in this session: `sum(stats.values())`. */
  function Reviewed(stats: Stats): nat
    requires stats.Keys == Ratings
  {
    stats[Again] + stats[Hard] + stats[Good] + stats[Easy]
  }

  // Each handler, as a function of the state before the button press. A button
  // that is disabled or not rendered cannot be pressed, so the state stays as it is.

  /** Picking a different deck starts over on its first card with fresh counters. */
  function AfterSelectDeck(s: Session, deck: DeckId): Session {
    if s.selectedCardset != Some(deck) then
      s.(selectedCardset := Some(deck), currentCardIndex := 0, showAnswer := false, sessionStats := FreshStats)
    else s
  }

  /** "Show Answer", rendered on the question side only. */
  function AfterShowAnswer(s: Session): Session {
    if !s.showAnswer then s.(showAnswer := true) else s
  }

  function ShowAnswerCalls(s: Session, card: CardId): seq<StoreCall> {
    if !s.showAnswer then [UpdateReviewStats(card)] else []
  }

  /** "Explain Simply", on the answer side: toggles its panel and closes the other. */
  function AfterExplainSimply(s: Session): Session {
    if s.showAnswer then s.(showEli5 := !s.showEli5, showMnemonic := false) else s
  }

  /** "Memory Trick", on the answer side: toggles its panel and closes the other. */
  function AfterMemoryTrick(s: Session): Session {
    if s.showAnswer then s.(showMnemonic := !s.showMnemonic, showEli5 := false) else s
  }

  /** `rate_card(rating)`, on the answer side. */
  function AfterRate(s: Session, rating: Rating, totalCards: int): Session
    requires StatsShaped(s)
  {
    // Dafny does not split a datatype value into its constructors unaided; this puts `rating` in `Ratings`.
    assert rating.Again? || rating.Hard? || rating.Good? || rating.Easy?;
    if s.showAnswer then
      s.(sessionStats := s.sessionStats[rating := s.sessionStats[rating] + 1],
         currentCardIndex :=
           if rating != Again && s.currentCardIndex < totalCards - 1 then s.currentCardIndex + 1
           else s.currentCardIndex,
         showAnswer := false, showEli5 := false, showMnemonic := false)
    else s
  }

  function RateCalls(s: Session, rating: Rating, card: CardId): seq<StoreCall> {
    if s.showAnswer then [UpdateCardProgress(card, rating)] else []
  }

  /** "Prev", disabled on the first card. */
  function AfterPrev(s: Session): Session {
    if s.currentCardIndex != 0 then
      s.(currentCardIndex := s.currentCardIndex - 1, showAnswer := false, showEli5 := false, showMnemonic := false)
    else s
  }

  /** "Flip", rendered on the answer side only. */
  function AfterFlip(s: Session): Session {
    if s.showAnswer then s.(showAnswer := false, showEli5 := false, showMnemonic := false) else s
  }

  /** "Next", disabled on the last card. */
  function AfterNext(s: Session, totalCards: int): Session {
    if s.currentCardIndex != totalCards - 1 then
      s.(currentCardIndex := s.currentCardIndex + 1, showAnswer := false, showEli5 := false, showMnemonic := false)
    else s
  }

  /** The completion block is shown on the last card once its answer is visible. */
  predicate DeckCompleted(s: Session, totalCards: int) {
    s.currentCardIndex == totalCards - 1 && s.showAnswer
  }

  /** "Study Again", inside the completion block; the explanation flags are left alone. */
  function AfterStudyAgain(s: Session, totalCards: int): Session {
    if DeckCompleted(s, totalCards) then
      s.(currentCardIndex := 0, showAnswer := false, sessionStats := FreshStats)
    else s
  }

  /** A button press, for reasoning about sequences of them. */
  datatype Event =
    | SelectDeck(deck: DeckId)
    | ShowAnswer
    | ExplainSimply
    | MemoryTrick
    | Rate(rating: Rating)
    | Prev
    | Flip
    | Next
    | StudyAgain

  function Step(s: Session, e: Event, totalCards: int): (r: Session)
    requires StatsShaped(s)
    ensures StatsShaped(r)
  {
    match e
    case SelectDeck(deck) => AfterSelectDeck(s, deck)
    case ShowAnswer => AfterShowAnswer(s)
    case ExplainSimply => AfterExplainSimply(s)
    case MemoryTrick => AfterMemoryTrick(s)
    case Rate(rating) => AfterRate(s, rating, totalCards)
    case Prev => AfterPrev(s)
    case Flip => AfterFlip(s)
    case Next => AfterNext(s, totalCards)
    case StudyAgain => AfterStudyAgain(s, totalCards)
  }

  function Run(s: Session, events: seq<Event>, totalCards: int): (r: Session)
    requires StatsShaped(s)
    ensures StatsShaped(r)
    decreases |events|
  {
    if events == [] then s else Run(Step(s, events[0], totalCards), events[1..], totalCards)
  }

  /** Every button keeps the index inside the deck and the two panels exclusive. */
  lemma StepPreservesValid(s: Session, e: Event, totalCards: int)
    requires Valid(s, totalCards)
    ensures Valid(Step(s, e, totalCards), totalCards)
  {
  }

  /** So does any sequence of presses within one deck, from any valid state. */
  lemma {:induction false} RunPreservesValid(s: Session, events: seq<Event>, totalCards: int)
    requires Valid(s, totalCards)
    ensures Valid(Run(s, events, totalCards), totalCards)
    decreases |events|
  {
    if events != [] {
      StepPreservesValid(s, events[0], totalCards);
      RunPreservesValid(Step(s, events[0], totalCards), events[1..], totalCards);
    }
  }

  lemma InitialSessionValid(totalCards: int)
    requires totalCards >= 1
    ensures Valid(InitialSession, totalCards)
  {
  }

  /**
   * `rate_card`: counts the rating exactly once, leaves the other counters, moves on
   * unless the rating is "again" or the card is the last, and hides the answer and
   * both panels.
   */
  lemma RateCardEffect(s: Session, rating: Rating, totalCards: int, card: CardId)
    requires Valid(s, totalCards) && s.showAnswer
    ensures var t := AfterRate(s, rating, totalCards);
      t.sessionStats[rating] == s.sessionStats[rating] + 1 &&
      (forall other :: other in Ratings && other != rating ==> t.sessionStats[other] == s.sessionStats[other]) &&
      Reviewed(t.sessionStats) == Reviewed(s.sessionStats) + 1 &&
      (t.currentCardIndex == s.currentCardIndex + 1 <==> rating != Again && s.currentCardIndex < totalCards - 1) &&
      (t.currentCardIndex != s.currentCardIndex + 1 ==> t.currentCardIndex == s.currentCardIndex) &&
      !t.showAnswer && !t.showEli5 && !t.showMnemonic &&
      t.selectedCardset == s.selectedCardset &&
      RateCalls(s, rating, card) == [UpdateCardProgress(card, rating)]
  {
  }

  /** On the question side there are no rating buttons: nothing is counted and the scheduler is not called. */
  lemma NoRatingOnQuestionSide(s: Session, rating: Rating, totalCards: int, card: CardId)
    requires StatsShaped(s) && !s.showAnswer
    ensures AfterRate(s, rating, totalCards) == s && RateCalls(s, rating, card) == []
  {
  }

  /** "Show Answer" records one review of the card, and only when it turns the card over. */
  lemma ShowAnswerRecordsReview(s: Session, card: CardId)
    ensures ShowAnswerCalls(s, card) == (if s.showAnswer then [] else [UpdateReviewStats(card)])
    ensures AfterShowAnswer(s).showAnswer
    ensures AfterShowAnswer(s).(showAnswer := s.showAnswer) == s
  {
  }

  /**
   * With the answer shown the two panel buttons toggle their panel, close the other
   * one and change nothing else; on the question side they are not rendered.
   */
  lemma PanelButtonsAreExclusive(s: Session)
    ensures s.showAnswer ==> AfterExplainSimply(s) == s.(showEli5 := !s.showEli5, showMnemonic := false)
    ensures s.showAnswer ==> AfterMemoryTrick(s) == s.(showMnemonic := !s.showMnemonic, showEli5 := false)
    ensures s.showAnswer ==> AfterExplainSimply(AfterExplainSimply(s)).showEli5 == s.showEli5
    ensures !s.showAnswer ==> AfterExplainSimply(s) == s && AfterMemoryTrick(s) == s
  {
  }

  /**
   * Prev and Next move one card and show its question with both panels closed;
   * they are no-ops at the ends of the deck and undo each other in between.
   */
  lemma NavigationBounds(s: Session, totalCards: int)
    requires Valid(s, totalCards)
    ensures s.currentCardIndex > 0 ==>
      AfterPrev(s) == s.(currentCardIndex := s.currentCardIndex - 1, showAnswer := false, showEli5 := false, showMnemonic := false)
    ensures s.currentCardIndex < totalCards - 1 ==>
      AfterNext(s, totalCards) == s.(currentCardIndex := s.currentCardIndex + 1, showAnswer := false, showEli5 := false, showMnemonic := false)
    ensures s.currentCardIndex == 0 ==> AfterPrev(s) == s
    ensures s.currentCardIndex == totalCards - 1 ==> AfterNext(s, totalCards) == s
    ensures s.currentCardIndex < totalCards - 1 ==>
      AfterPrev(AfterNext(s, totalCards)) == s.(showAnswer := false, showEli5 := false, showMnemonic := false)
    ensures s.currentCardIndex > 0 ==>
      AfterNext(AfterPrev(s), totalCards) == s.(showAnswer := false, showEli5 := false, showMnemonic := false)
  {
  }

  /** "Flip" turns the card back to its question and closes both panels, on the same card. */
  lemma FlipHidesAnswer(s: Session)
    ensures s.showAnswer ==> AfterFlip(s) == s.(showAnswer := false, showEli5 := false, showMnemonic := false)
    ensures !s.showAnswer ==> AfterFlip(s) == s
  {
  }

  /** "Again" keeps the card in place, so a lapse is retried by position, not by its due time. */
  lemma AgainHoldsPosition(s: Session, totalCards: int)
    requires Valid(s, totalCards)
    ensures AfterRate(s, Again, totalCards).currentCardIndex == s.currentCardIndex
  {
  }

  /** The completion block appears exactly when the last card's answer is shown: reached by Show Answer there. */
  lemma CompletionOnLastAnswer(s: Session, totalCards: int)
    requires Valid(s, totalCards)
    ensures DeckCompleted(AfterShowAnswer(s), totalCards) <==> s.currentCardIndex == totalCards - 1
    ensures !DeckCompleted(AfterFlip(s), totalCards)
    ensures DeckCompleted(AfterPrev(s), totalCards) ==> AfterPrev(s) == s
    ensures DeckCompleted(AfterNext(s, totalCards), totalCards) ==> AfterNext(s, totalCards) == s
    ensures forall rating :: !DeckCompleted(AfterRate(s, rating, totalCards), totalCards)
  {
  }

  /**
   * Rating the last card, with any rating, keeps it the current card, so
   * the completion block returns once its answer is shown again.
   */
  lemma LastCardStaysAfterRating(s: Session, rating: Rating, totalCards: int)
    requires Valid(s, totalCards) && DeckCompleted(s, totalCards)
    ensures DeckCompleted(AfterShowAnswer(AfterRate(s, rating, totalCards)), totalCards)
  {
  }

  /** A new deck and "Study Again" both start from the first card with every counter at zero. */
  lemma ResetsStartOver(s: Session, deck: DeckId, totalCards: int)
    requires Valid(s, totalCards)
    ensures s.selectedCardset != Some(deck) ==>
      var t := AfterSelectDeck(s, deck);
      t == s.(selectedCardset := Some(deck), currentCardIndex := 0, showAnswer := false, sessionStats := FreshStats) &&
      StatsShaped(t) && Reviewed(t.sessionStats) == 0
    ensures s.selectedCardset == Some(deck) ==> AfterSelectDeck(s, deck) == s
    ensures DeckCompleted(s, totalCards) ==>
      var t := AfterStudyAgain(s, totalCards);
      t.currentCardIndex == 0 && !t.showAnswer && Reviewed(t.sessionStats) == 0 &&
      t.selectedCardset == s.selectedCardset && t.showEli5 == s.showEli5 && t.showMnemonic == s.showMnemonic
    ensures !DeckCompleted(s, totalCards) ==> AfterStudyAgain(s, totalCards) == s
  {
  }

  /** A deck of any size can follow: its first card is a valid position. */
  lemma NewDeckIsValid(s: Session, deck: DeckId, newTotal: int)
    requires StatsShaped(s) && !(s.showEli5 && s.showMnemonic) && s.selectedCardset != Some(deck)
    requires newTotal >= 1
    ensures Valid(AfterSelectDeck(s, deck), newTotal)
  {
  }

  /** Without a deck change or "Study Again", no counter ever goes down. */
  lemma {:induction false} CountersOnlyGrow(s: Session, events: seq<Event>, totalCards: int)
    requires StatsShaped(s)
    requires forall i :: 0 <= i < |events| ==> !events[i].SelectDeck? && !events[i].StudyAgain?
    ensures forall rating :: rating in Ratings ==>
      Run(s, events, totalCards).sessionStats[rating] >= s.sessionStats[rating]
    decreases |events|
  {
    if events != [] {
      var t := Step(s, events[0], totalCards);
      assert forall i :: 0 <= i < |events[1..]| ==> events[1..][i] == events[i + 1];
      CountersOnlyGrow(t, events[1..], totalCards);
    }
  }

  /** The ELI5 panel under the answer: `get_explanation(card, 'eli5')`, else the generator. */
  function Eli5Panel(s: Session, store: ExplanationStore, card: CardId, generated: TextResult): (p: Option<Panel>)
    ensures p.Some? <==> s.showAnswer && s.showEli5
    ensures p.Some? && Truthy(GetExplanation(store, card, Eli5)) ==> p.value == FromStore(store[(card, Eli5)])
    ensures p.Some? && !Truthy(GetExplanation(store, card, Eli5)) ==>
      p.value == (if generated.TextOk? then FromGenerator(generated.text) else GenerationError("Error: " + generated.error))
  {
    if s.showAnswer && s.showEli5 then
      Some(CacheThenGenerate(GetExplanation(store, card, Eli5), generated, "Error: "))
    else None
  }

  /** The memory-trick panel; `existing` is what `get_mnemonic` returns. */
  function MnemonicPanel(s: Session, existing: Option<string>, generated: TextResult): (p: Option<Panel>)
    ensures p.Some? <==> s.showAnswer && s.showMnemonic
    ensures p.Some? && Truthy(existing) ==> p.value == FromStore(existing.value)
    ensures p.Some? && !Truthy(existing) ==>
      p.value == (if generated.TextOk? then FromGenerator(generated.text) else GenerationError("Error: " + generated.error))
  {
    if s.showAnswer && s.showMnemonic then
      Some(CacheThenGenerate(existing, generated, "Error: "))
    else None
  }

  /** The saves a render makes: only a freshly generated text is written back. */
  function PanelCalls(card: CardId, eli5: Option<Panel>, mnemonic: Option<Panel>): seq<StoreCall> {
    (if eli5.Some? && eli5.value.FromGenerator? then [SaveEli5(card, eli5.value.text)] else []) +
    (if mnemonic.Some? && mnemonic.value.FromGenerator? then [SaveMnemonic(card, mnemonic.value.text)] else [])
  }

  /** The ELI5 text is saved exactly when its panel is open, nothing is stored, and generation succeeded with that text. */
  lemma Eli5SavedOnlyWhenGenerated(s: Session, store: ExplanationStore, card: CardId, generated: TextResult, t: string)
    ensures SaveEli5(card, t) in PanelCalls(card, Eli5Panel(s, store, card, generated), None) <==>
      s.showAnswer && s.showEli5 && !Truthy(GetExplanation(store, card, Eli5)) && generated == TextOk(t)
  {
  }

  /** The mnemonic is saved exactly when its panel is open, nothing is stored, and generation succeeded with that text. */
  lemma MnemonicSavedOnlyWhenGenerated(s: Session, existing: Option<string>, card: CardId, generated: TextResult, t: string)
    ensures SaveMnemonic(card, t) in PanelCalls(card, None, MnemonicPanel(s, existing, generated)) <==>
      s.showAnswer && s.showMnemonic && !Truthy(existing) && generated == TextOk(t)
  {
  }

  /** A render shows at most one panel, so it asks the generator at most once and saves at most once. */
  lemma AtMostOnePanel(s: Session, totalCards: int, store: ExplanationStore, card: CardId,
                       existing: Option<string>, g1: TextResult, g2: TextResult)
    requires Valid(s, totalCards)
    ensures !(Eli5Panel(s, store, card, g1).Some? && MnemonicPanel(s, existing, g2).Some?)
    ensures |PanelCalls(card, Eli5Panel(s, store, card, g1), MnemonicPanel(s, existing, g2))| <= 1
  {
  }

  /** The page's session state, updated in place by the button handlers. */
  class ReviewPage {
    var currentCardIndex: int
    var showAnswer: bool
    var selectedCardset: Option<DeckId>
    var sessionStats: Stats
    var showEli5: bool
    var showMnemonic: bool

    function State(): Session
      reads this
    {
      Session(currentCardIndex, showAnswer, selectedCardset, sessionStats, showEli5, showMnemonic)
    }

    /** The defaults set on the first run of the page. */
    constructor ()
      ensures State() == InitialSession
    {
      currentCardIndex := 0;
      showAnswer := false;
      selectedCardset := None;
      sessionStats := FreshStats;
      showEli5 := false;
      showMnemonic := false;
    }

    method SelectDeck(deck: DeckId)
      modifies this
      ensures State() == AfterSelectDeck(old(State()), deck)
    {
      if selectedCardset != Some(deck) {
        selectedCardset := Some(deck);
        currentCardIndex := 0;
        showAnswer := false;
        sessionStats := FreshStats;
      }
    }

    method PressShowAnswer(card: CardId) returns (calls: seq<StoreCall>)
      modifies this
      ensures State() == AfterShowAnswer(old(State()))
      ensures calls == ShowAnswerCalls(old(State()), card)
    {
      calls := [];
      if !showAnswer {
        showAnswer := true;
        calls := [UpdateReviewStats(card)];
      }
    }

    method PressExplainSimply()
      modifies this
      ensures State() == AfterExplainSimply(old(State()))
    {
      if showAnswer {
        showEli5 := !showEli5;
        showMnemonic := false;
      }
    }

    method PressMemoryTrick()
      modifies this
      ensures State() == AfterMemoryTrick(old(State()))
    {
      if showAnswer {
        showMnemonic := !showMnemonic;
        showEli5 := false;
      }
    }

    method RateCard(rating: Rating, card: CardId, totalCards: int) returns (calls: seq<StoreCall>)
      requires StatsShaped(State())
      modifies this
      ensures State() == AfterRate(old(State()), rating, totalCards)
      ensures calls == RateCalls(old(State()), rating, card)
    {
      calls := [];
      if showAnswer {
        calls := [UpdateCardProgress(card, rating)];
        sessionStats := sessionStats[rating := sessionStats[rating] + 1];
        if rating != Again && currentCardIndex < totalCards - 1 {
          currentCardIndex := currentCardIndex + 1;
        }
        showAnswer := false;
        showEli5 := false;
        showMnemonic := false;
      }
    }

    method PressPrev()
      modifies this
      ensures State() == AfterPrev(old(State()))
    {
      if currentCardIndex != 0 {
        currentCardIndex := currentCardIndex - 1;
        showAnswer := false;
        showEli5 := false;
        showMnemonic := false;
      }
    }

    method PressFlip()
      modifies this
      ensures State() == AfterFlip(old(State()))
    {
      if showAnswer {
        showAnswer := false;
        showEli5 := false;
        showMnemonic := false;
      }
    }

    method PressNext(totalCards: int)
      modifies this
      ensures State() == AfterNext(old(State()), totalCards)
    {
      if currentCardIndex != totalCards - 1 {
        currentCardIndex := currentCardIndex + 1;
        showAnswer := false;
        showEli5 := false;
        showMnemonic := false;
      }
    }

    method PressStudyAgain(totalCards: int)
      modifies this
      ensures State() == AfterStudyAgain(old(State()), totalCards)
    {
      if currentCardIndex == totalCards - 1 && showAnswer {
        currentCardIndex := 0;
        showAnswer := false;
        sessionStats := FreshStats;
      }
    }

    /** Whether this run of the page shows the completion block. */
    method IsDeckCompleted(totalCards: int) returns (completed: bool)
      ensures completed <==> DeckCompleted(State(), totalCards)
    {
      completed := currentCardIndex == totalCards - 1 && showAnswer;
    }
  }
}
