/**
 * The cache-then-generate rule both review pages follow for explanations:
 * a stored explanation is shown as it is; only when none is stored is the
 * generator asked, and only what it produced successfully is saved. The store
 * is the pair of explanation columns of the flashcards table, read by
 * `get_explanation` and written by `save_explanation`.
 */
module ExplanationCache {
  import opened Wrappers
  import opened FlashcardGenerator

  type CardId = int

  /** The explanation kinds, i.e. the columns `explanation_eli5` and `explanation_eli10`. */
  datatype Level = Eli5 | Eli10

  /** The level number passed to the generator. */
  function LevelNumber(level: Level): (n: int)
    ensures AgeDescription(n) == (if level == Eli5 then "5-year-old" else "10-year-old")
  {
    if level == Eli5 then 5 else 10
  }

  type ExplanationStore = map<(CardId, Level), string>

  /** `get_explanation`: the stored text, treating a missing row and an empty text alike. */
  function GetExplanation(store: ExplanationStore, card: CardId, level: Level): (r: Option<string>)
    ensures r.None? <==> (card, level) !in store || store[(card, level)] == ""
    ensures r.Some? ==> r.value != "" && r.value == store[(card, level)]
  {
    if (card, level) in store && store[(card, level)] != "" then Some(store[(card, level)]) else None
  }

  /** `save_explanation`: overwrites one column of one card. */
  function SaveExplanation(store: ExplanationStore, card: CardId, level: Level, text: string): (r: ExplanationStore)
    ensures r.Keys == store.Keys + {(card, level)}
    ensures GetExplanation(r, card, level) == (if text == "" then None else Some(text))
    ensures forall k :: k in store && k != (card, level) ==> r[k] == store[k]
  {
    store[(card, level):= text]
  }

  /** What the page shows under the answer for one explanation request. */
  datatype Panel =
    | FromStore(text: string)
    | FromGenerator(text: string)
    | GenerationError(message: string)

  /**
   * The rule itself: a stored text wins; otherwise the generator's text is shown
   * (and saved by the caller) or its error is reported after `errorPrefix`.
   */
  function CacheThenGenerate(existing: Option<string>, generated: TextResult, errorPrefix: string): (p: Panel)
    ensures p.FromStore? <==> Truthy(existing)
    ensures p.FromStore? ==> p.text == existing.value
    ensures p.FromGenerator? <==> !Truthy(existing) && generated.TextOk?
    ensures p.FromGenerator? ==> p.text == generated.text
    ensures p.GenerationError? ==> !Truthy(existing) && generated.TextErr? && p.message == errorPrefix + generated.error
  {
    if Truthy(existing) then FromStore(existing.value)
    else
      match generated
      case TextOk(text) => FromGenerator(text)
      case TextErr(error) => GenerationError(errorPrefix + error)
  }

  /** The generator's answer is not consulted when an explanation is stored. */
  lemma StoredExplanationIgnoresGenerator(existing: Option<string>, g1: TextResult, g2: TextResult, errorPrefix: string)
    requires Truthy(existing)
    ensures CacheThenGenerate(existing, g1, errorPrefix) == CacheThenGenerate(existing, g2, errorPrefix)
  {
  }

  /** The store after a panel is shown: only a freshly generated text is written back. */
  function StoreAfter(store: ExplanationStore, card: CardId, level: Level, p: Panel): (r: ExplanationStore)
    ensures !p.FromGenerator? ==> r == store
  {
    if p.FromGenerator? then SaveExplanation(store, card, level, p.text) else store
  }

  /**
   * Once an explanation has been generated and saved, the next request for the
   * same card and level is served from the store, whatever the generator would
   * answer. An empty generated text is saved but reads back as missing, so it
   * would be generated again.
   */
  lemma GeneratedExplanationIsReused(store: ExplanationStore, card: CardId, level: Level,
                                        first: TextResult, later: TextResult, errorPrefix: string)
    requires GetExplanation(store, card, level).None?
    requires first.TextOk?
    ensures var p := CacheThenGenerate(GetExplanation(store, card, level), first, errorPrefix);
      var store' := StoreAfter(store, card, level, p);
      p == FromGenerator(first.text) &&
      (first.text != "" ==>
        CacheThenGenerate(GetExplanation(store', card, level), later, errorPrefix) == FromStore(first.text)) &&
      (first.text == "" ==>
        CacheThenGenerate(GetExplanation(store', card, level), later, errorPrefix) ==
        CacheThenGenerate(None, later, errorPrefix))
  {
    var p := CacheThenGenerate(GetExplanation(store, card, level), first, errorPrefix);
    assert p == FromGenerator(first.text);
    var store' := StoreAfter(store, card, level, p);
    assert store' == SaveExplanation(store, card, level, first.text);
  }

  /** A failed generation leaves the store as it was, so the next request asks the generator again. */
  lemma FailedGenerationIsRetried(store: ExplanationStore, card: CardId, level: Level,
                                  first: TextResult, errorPrefix: string)
    requires GetExplanation(store, card, level).None?
    requires first.TextErr?
    ensures StoreAfter(store, card, level, CacheThenGenerate(GetExplanation(store, card, level), first, errorPrefix)) == store
  {
  }
}
