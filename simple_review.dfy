/**
 * The plain viewer page: question/answer flipping, navigation, jumping to a
 * card, and on-demand ELI5/ELI10 explanations kept both in the store and in
 * the session. The explanation the page shows is modelled twice: as written,
 * where the session copy is not tied to any card, and corrected, where it is.
 */
module SimpleReview {
  import opened Wrappers
  import opened FlashcardGenerator
  import opened ExplanationCache
  import AnkiReview
  import opened PyStr

  /** A session copy of an explanation, tagged with the card it was produced for. */
  datatype Tagged = Tagged(card: CardId, text: string)

  /** The page's session state; the two explanation slots start out absent. */
  datatype Viewer = Viewer(
    currentCardIndex: int,
    showAnswer: bool,
    selectedCardset: Option<AnkiReview.DeckId>,
    eli5Explanation: Option<Tagged>,
    eli10Explanation: Option<Tagged>)

  const InitialViewer: Viewer := Viewer(0, false, None, None, None)

  predicate Valid(v: Viewer, totalCards: int) {
    0 <= v.currentCardIndex < totalCards
  }

  function Slot(v: Viewer, level: Level): Option<Tagged> {
    match level
    case Eli5 => v.eli5Explanation
    case Eli10 => v.eli10Explanation
  }

  function WithSlot(v: Viewer, level: Level, t: Tagged): (r: Viewer)
    ensures Slot(r, level) == Some(t)
    ensures forall other :: other != level ==> Slot(r, other) == Slot(v, other)
    ensures r.(eli5Explanation := v.eli5Explanation, eli10Explanation := v.eli10Explanation) == v
  {
    match level
    case Eli5 => v.(eli5Explanation := Some(t))
    case Eli10 => v.(eli10Explanation := Some(t))
  }

  /** A different deck in the selector starts on its first card, question side up. */
  function AfterSelectDeck(v: Viewer, deck: AnkiReview.DeckId): Viewer {
    if v.selectedCardset != Some(deck) then
      v.(selectedCardset := Some(deck), currentCardIndex := 0, showAnswer := false)
    else v
  }

  /** "Previous", disabled on the first card. */
  function AfterPrevious(v: Viewer): Viewer {
    if v.currentCardIndex != 0 then v.(currentCardIndex := v.currentCardIndex - 1, showAnswer := false) else v
  }

  /** The flip button, labelled by the side it turns to. */
  function AfterFlip(v: Viewer): Viewer {
    v.(showAnswer := !v.showAnswer)
  }

  /** A review is recorded when the flip reveals the answer. */
  function FlipCalls(v: Viewer, card: CardId): seq<AnkiReview.StoreCall> {
    if !v.showAnswer then [AnkiReview.UpdateReviewStats(card)] else []
  }

  /** "Next", disabled on the last card. */
  function AfterNext(v: Viewer, totalCards: int): Viewer {
    if v.currentCardIndex != totalCards - 1 then v.(currentCardIndex := v.currentCardIndex + 1, showAnswer := false)
    else v
  }

  /** "Go to Card"; the number input only admits card numbers 1 to `totalCards`. */
  function AfterJump(v: Viewer, jumpTo: int, totalCards: int): (r: Viewer)
    requires 1 <= jumpTo <= totalCards
    ensures Valid(r, totalCards) && r.currentCardIndex == jumpTo - 1 && !r.showAnswer
    // The session explanations and the deck are kept across a jump.
    ensures r.eli5Explanation == v.eli5Explanation && r.eli10Explanation == v.eli10Explanation
    ensures r.selectedCardset == v.selectedCardset
  {
    v.(currentCardIndex := jumpTo - 1, showAnswer := false)
  }

  /** The error text the page reports when generation fails. */
  const ExplanationErrorPrefix: string := "Failed to generate explanation: "

  /**
   * An explanation button, shown on the answer side: the stored text goes into
   * the session; otherwise a generated text is saved and goes into the session;
   * a failure changes nothing.
   */
  function ExplainOutcome(store: ExplanationStore, card: CardId, level: Level, generated: TextResult): Panel {
    CacheThenGenerate(GetExplanation(store, card, level), generated, ExplanationErrorPrefix)
  }

  function AfterExplain(v: Viewer, store: ExplanationStore, card: CardId, level: Level, generated: TextResult): Viewer {
    if v.showAnswer then
      match ExplainOutcome(store, card, level, generated)
      case FromStore(text) => WithSlot(v, level, Tagged(card, text))
      case FromGenerator(text) => WithSlot(v, level, Tagged(card, text))
      case GenerationError(_) => v
    else v
  }

  function StoreAfterExplain(v: Viewer, store: ExplanationStore, card: CardId, level: Level,
                             generated: TextResult): ExplanationStore
  {
    if v.showAnswer then StoreAfter(store, card, level, ExplainOutcome(store, card, level, generated)) else store
  }

  /**
   * An explanation button with nothing stored asks the generator at the button's
   * level: a text it produced goes into that level's slot for this card and is
   * saved, an error leaves the session and the store as they were.
   */
  lemma GeneratedAtItsLevel(v: Viewer, store: ExplanationStore, card: CardId, level: Level,
                            spending: SpendingCheck, sessionKey: Option<string>, envKey: Option<string>,
                            reply: ApiReply)
    requires v.showAnswer && !Truthy(GetExplanation(store, card, level))
    ensures var g := GenerateEliExplanation(LevelNumber(level), spending, sessionKey, envKey, reply);
      (g.TextOk? <==> spending.allowed && ClientKey(sessionKey, envKey).Some? && reply.Replied?) &&
      (g.TextOk? ==>
        AfterExplain(v, store, card, level, g) == WithSlot(v, level, Tagged(card, Strip(reply.text))) &&
        StoreAfterExplain(v, store, card, level, g) == SaveExplanation(store, card, level, Strip(reply.text))) &&
      (g.TextErr? ==>
        AfterExplain(v, store, card, level, g) == v && StoreAfterExplain(v, store, card, level, g) == store)
  {
  }

  /**
   * The explanation shown under the answer, as written: the card's stored text,
   * else whatever the session slot holds, whichever card it came from.
   */
  function DisplayedAsWritten(v: Viewer, store: ExplanationStore, card: CardId, level: Level): (r: Option<string>)
    ensures r.Some? ==> v.showAnswer && r.value != ""
    ensures v.showAnswer && Truthy(GetExplanation(store, card, level)) ==> r == GetExplanation(store, card, level)
    ensures (v.showAnswer && !Truthy(GetExplanation(store, card, level)) &&
             Slot(v, level).Some? && Slot(v, level).value.text != "") ==>
      r == Some(Slot(v, level).value.text)
    ensures (v.showAnswer && !Truthy(GetExplanation(store, card, level)) &&
             (Slot(v, level).None? || Slot(v, level).value.text == "")) ==>
      r.None?
  {
    if !v.showAnswer then None
    else if Truthy(GetExplanation(store, card, level)) then GetExplanation(store, card, level)
    else if Slot(v, level).Some? && Slot(v, level).value.text != "" then Some(Slot(v, level).value.text)
    else None
  }

  /**
   * As written, a text generated for one card is shown under the next one: the
   * first card of a deck with nothing stored gets an ELI5 text, "Next" moves on,
   * and the second card shows the first card's text although nothing is stored
   * or generated for it.
   */
  lemma StaleExplanationShownAsWritten()
    ensures var deck := [1, 2];
      var v := Viewer(0, true, Some("deck"), None, None);
      var store: ExplanationStore := map[];
      var v1 := AfterExplain(v, store, deck[0], Eli5, TextOk("X"));
      var store1 := StoreAfterExplain(v, store, deck[0], Eli5, TextOk("X"));
      var v2 := AfterFlip(AfterNext(v1, |deck|));
      GetExplanation(store1, deck[v2.currentCardIndex], Eli5).None? &&
      DisplayedAsWritten(v2, store1, deck[v2.currentCardIndex], Eli5) == Some("X")
  {
    var store: ExplanationStore := map[];
    var store1 := SaveExplanation(store, 1, Eli5, "X");
    assert GetExplanation(store1, 2, Eli5).None? by {
      assert (2, Eli5) !in store1;
    }
  }

  /** Corrected: the session slot is used only when it was filled for the current card. */
  function DisplayedExplanation(v: Viewer, store: ExplanationStore, card: CardId, level: Level): (r: Option<string>)
    ensures r.Some? ==> v.showAnswer && r.value != ""
    ensures r.Some? ==> GetExplanation(store, card, level) == r || Slot(v, level) == Some(Tagged(card, r.value))
    ensures v.showAnswer && Truthy(GetExplanation(store, card, level)) ==> r == GetExplanation(store, card, level)
  {
    if !v.showAnswer then None
    else if Truthy(GetExplanation(store, card, level)) then GetExplanation(store, card, level)
    else if Slot(v, level).Some? && Slot(v, level).value.card == card && Slot(v, level).value.text != "" then
      Some(Slot(v, level).value.text)
    else None
  }

  /** Both versions agree whenever the session slot belongs to the card on screen. */
  lemma CorrectionOnlyDropsOtherCards(v: Viewer, store: ExplanationStore, card: CardId, level: Level)
    requires Slot(v, level).None? || Slot(v, level).value.card == card
    ensures DisplayedExplanation(v, store, card, level) == DisplayedAsWritten(v, store, card, level)
  {
  }

  /**
   * After an explanation button for `card`, with the answer still shown: on
   * success that card shows the stored or freshly generated text (unless it is
   * empty), every other card shows exactly what the store holds for it, and the
   * other level's slot is untouched; on failure nothing changes.
   */
  lemma ExplanationStaysWithItsCard(v: Viewer, store: ExplanationStore, card: CardId, level: Level,
                                    generated: TextResult, other: CardId, otherLevel: Level)
    requires v.showAnswer && other != card && otherLevel != level
    ensures var p := ExplainOutcome(store, card, level, generated);
      var v1 := AfterExplain(v, store, card, level, generated);
      var store1 := StoreAfterExplain(v, store, card, level, generated);
      (p.FromStore? || (p.FromGenerator? && p.text != "") ==> DisplayedExplanation(v1, store1, card, level) == Some(p.text)) &&
      (!p.GenerationError? ==> DisplayedExplanation(v1, store1, other, level) == GetExplanation(store, other, level)) &&
      (p.GenerationError? ==> v1 == v && store1 == store) &&
      GetExplanation(store1, other, level) == GetExplanation(store, other, level) &&
      Slot(v1, otherLevel) == Slot(v, otherLevel)
  {
    var p := ExplainOutcome(store, card, level, generated);
    var store1 := StoreAfterExplain(v, store, card, level, generated);
    if p.FromGenerator? {
      assert store1 == SaveExplanation(store, card, level, p.text);
      assert (other, level) in store1 <==> (other, level) in store;
    }
  }

  /** Every button keeps the position inside the deck. */
  lemma TransitionsKeepPosition(v: Viewer, totalCards: int, deck: AnkiReview.DeckId, store: ExplanationStore,
                                card: CardId, level: Level, generated: TextResult)
    requires Valid(v, totalCards)
    ensures Valid(AfterPrevious(v), totalCards) && Valid(AfterNext(v, totalCards), totalCards)
    ensures Valid(AfterFlip(v), totalCards) && Valid(AfterExplain(v, store, card, level, generated), totalCards)
    ensures v.selectedCardset != Some(deck) ==>
      AfterSelectDeck(v, deck).currentCardIndex == 0 && !AfterSelectDeck(v, deck).showAnswer &&
      AfterSelectDeck(v, deck).selectedCardset == Some(deck) &&
      AfterSelectDeck(v, deck).eli5Explanation == v.eli5Explanation &&
      AfterSelectDeck(v, deck).eli10Explanation == v.eli10Explanation
    ensures v.selectedCardset == Some(deck) ==> AfterSelectDeck(v, deck) == v
  {
  }

  /** Flipping twice restores the state, and a review is recorded on the flip that reveals. */
  lemma FlipFacts(v: Viewer, card: CardId)
    ensures AfterFlip(AfterFlip(v)) == v
    ensures AfterFlip(v).showAnswer == !v.showAnswer
    ensures |FlipCalls(v, card)| + |FlipCalls(AfterFlip(v), card)| == 1
    ensures FlipCalls(v, card) != [] <==> AfterFlip(v).showAnswer
  {
  }

  /**
   * Previous and Next move one card and show its question, keeping the deck and the
   * session explanations; they stop at the ends of the deck and undo each other in between.
   */
  lemma NavigationBounds(v: Viewer, totalCards: int)
    requires Valid(v, totalCards)
    ensures v.currentCardIndex > 0 ==>
      AfterPrevious(v) == v.(currentCardIndex := v.currentCardIndex - 1, showAnswer := false)
    ensures v.currentCardIndex < totalCards - 1 ==>
      AfterNext(v, totalCards) == v.(currentCardIndex := v.currentCardIndex + 1, showAnswer := false)
    ensures v.currentCardIndex == 0 ==> AfterPrevious(v) == v
    ensures v.currentCardIndex == totalCards - 1 ==> AfterNext(v, totalCards) == v
    ensures v.currentCardIndex < totalCards - 1 ==> AfterPrevious(AfterNext(v, totalCards)) == v.(showAnswer := false)
  {
  }

  /** On the question side the explanation buttons are not shown and nothing is displayed. */
  lemma QuestionSideHasNoExplanations(v: Viewer, store: ExplanationStore, card: CardId, level: Level,
                                      generated: TextResult)
    requires !v.showAnswer
    ensures AfterExplain(v, store, card, level, generated) == v
    ensures StoreAfterExplain(v, store, card, level, generated) == store
    ensures DisplayedExplanation(v, store, card, level).None?
  {
  }

  /** The page's session state, updated in place by the widgets. */
  class SimpleViewer {
    var currentCardIndex: int
    var showAnswer: bool
    var selectedCardset: Option<AnkiReview.DeckId>
    var eli5Explanation: Option<Tagged>
    var eli10Explanation: Option<Tagged>

    function State(): Viewer
      reads this
    {
      Viewer(currentCardIndex, showAnswer, selectedCardset, eli5Explanation, eli10Explanation)
    }

    constructor ()
      ensures State() == InitialViewer
    {
      currentCardIndex := 0;
      showAnswer := false;
      selectedCardset := None;
      eli5Explanation := None;
      eli10Explanation := None;
    }

    method SelectDeck(deck: AnkiReview.DeckId)
      modifies this
      ensures State() == AfterSelectDeck(old(State()), deck)
    {
      if selectedCardset != Some(deck) {
        selectedCardset := Some(deck);
        currentCardIndex := 0;
        showAnswer := false;
      }
    }

    method PressPrevious()
      modifies this
      ensures State() == AfterPrevious(old(State()))
    {
      if currentCardIndex != 0 {
        currentCardIndex := currentCardIndex - 1;
        showAnswer := false;
      }
    }

    method PressFlip(card: CardId) returns (calls: seq<AnkiReview.StoreCall>)
      modifies this
      ensures State() == AfterFlip(old(State()))
      ensures calls == FlipCalls(old(State()), card)
    {
      showAnswer := !showAnswer;
      calls := [];
      if showAnswer {
        calls := [AnkiReview.UpdateReviewStats(card)];
      }
    }

    method PressNext(totalCards: int)
      modifies this
      ensures State() == AfterNext(old(State()), totalCards)
    {
      if currentCardIndex != totalCards - 1 {
        currentCardIndex := currentCardIndex + 1;
        showAnswer := false;
      }
    }

    method JumpTo(jumpTo: int, totalCards: int)
      requires 1 <= jumpTo <= totalCards
      modifies this
      ensures State() == AfterJump(old(State()), jumpTo, totalCards)
    {
      currentCardIndex := jumpTo - 1;
      showAnswer := false;
    }

    method PressExplain(store: ExplanationStore, card: CardId, level: Level, generated: TextResult)
      returns (store': ExplanationStore)
      modifies this
      ensures State() == AfterExplain(old(State()), store, card, level, generated)
      ensures store' == StoreAfterExplain(old(State()), store, card, level, generated)
    {
      store' := store;
      if showAnswer {
        var outcome := ExplainOutcome(store, card, level, generated);
        match outcome {
          case FromStore(text) =>
            if level == Eli5 { eli5Explanation := Some(Tagged(card, text)); }
            else { eli10Explanation := Some(Tagged(card, text)); }
          case FromGenerator(text) =>
            store' := SaveExplanation(store, card, level, text);
            if level == Eli5 { eli5Explanation := Some(Tagged(card, text)); }
            else { eli10Explanation := Some(Tagged(card, text)); }
          case GenerationError(_) =>
        }
      }
    }

    /** The explanation shown under the current card's answer. */
    method ShownExplanation(store: ExplanationStore, card: CardId, level: Level) returns (text: Option<string>)
      ensures text == DisplayedExplanation(State(), store, card, level)
    {
      var stored := GetExplanation(store, card, level);
      var slot := if level == Eli5 then eli5Explanation else eli10Explanation;
      text := None;
      if showAnswer {
        if Truthy(stored) {
          text := stored;
        } else if slot.Some? && slot.value.card == card && slot.value.text != "" {
          text := Some(slot.value.text);
        }
      }
    }
  }
}
