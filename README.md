# Flashcard study app: a Dafny model of its logic

The app is a Streamlit flashcard generator and trainer. A language model writes a
deck of question/answer cards on a topic. The cards are stored, and two review
pages let the user study them. Each page keeps its state in the Streamlit session
between reruns, and each can ask the model for "explain like I'm 5/10"
explanations or a memory trick. Those are cached in the store once generated.

This project models:

- **the deck-study page** (`pages/3_Review.py`). `AnkiReview` holds:
  - the session record: card index, answer side, the two explanation-panel flags,
    the four-rating counter and the selected deck;
  - one transition function per button, with a no-op where the button is disabled
    or not rendered;
  - the `ReviewPage` class, whose fields the handlers update in place;
  - the lemmas about the transitions.
- **the plain viewer page** (`pages/2_Review.py`). `SimpleReview` has the same
  structure, adds jumping to a card, and keeps explanations in the session. The
  explanation shown under an answer is modelled twice, as written and corrected
  (see Findings).
- **the text helpers** (`utils.py`). `Utils` covers the complexity lookup tables,
  `truncate_text` and the ordered checks of `validate_topic`.
- **post-processing of the model's replies** (`flashcard_generator.py`).
  `FlashcardGenerator` covers:
  - the staged fallback of `parse_json_response`;
  - the card filter of `generate_flashcards`, including what Python's `in` does on
    each JSON shape;
  - the spending-limit and API-key gates;
  - the explanation and mnemonic generators.

  `json.loads`, `re.search`, the Anthropic reply and the spending check are oracles
  passed in as parameters.
- **the explanation cache** (`database.py` `get_explanation`/`save_explanation`).
  `ExplanationCache` models the store, and the cache-then-generate rule that both
  review pages follow.
- **Python string builtins** the code relies on. `PyStr` covers `str.strip` with
  Python's whitespace set, `find`/`rfind`, the substring `in` and slices with
  negative bounds. `Wrappers` holds `Option` and string truthiness.

Each page's state-changing class method is proved against a pure transition
function on a value of the session record (`State() == AfterX(old(State()), …)`).
The properties are then proved about those functions.

## Model

| member | source | states |
|---|---|---|
| PyStr.Strip | flashcard_generator.py:338 | the result is no longer than the input; it is empty exactly when every character is Python whitespace; otherwise it neither starts nor ends with whitespace |
| PyStr.StripKeepsMiddle | flashcard_generator.py:338 | the stripped text is one contiguous run of the input, and everything before and after it is whitespace |
| PyStr.LStrip | utils.py:114 | the result is a suffix of the input; everything removed is whitespace; the result does not start with whitespace |
| PyStr.RStrip | utils.py:114 | the result is a prefix of the input; everything removed is whitespace; the result does not end with whitespace |
| PyStr.SliceTo | flashcard_generator.py:449 | Python `s[:k]`: a prefix of `s`, of length `min(k, len(s))` for `k >= 0` and `max(len(s)+k, 0)` for negative `k` |
| PyStr.Find | flashcard_generator.py:365 | `str.find`: -1 exactly when the character is absent, otherwise the index of its first occurrence |
| PyStr.RFind | flashcard_generator.py:366 | `str.rfind`: -1 exactly when the character is absent, otherwise the index of its last occurrence |
| PyStr.IsSpace | utils.py:114 | the characters `str.strip()` removes: Python's whitespace set (space, tab to carriage return, the separators U+001C to U+001F, U+0085, U+00A0 and the Unicode spaces); `Strip`, `LStrip` and `RStrip` are stated in terms of it |
| PyStr.Contains | flashcard_generator.py:428 | the substring test `p in s`; `ShorterNotContains` proves a longer pattern never occurs |
| Utils.ComplexityEmoji | utils.py:49-64 | Beginner, Intermediate and Advanced map to their own emoji (seedling, herb, tree, as the code points the literals were meant to be); any other string maps to the books emoji |
| Utils.ComplexityColor | utils.py:67-82 | Beginner, Intermediate and Advanced map to green, orange and red; any other string maps to blue |
| Utils.ComplexityTablesAgree | utils.py:59-82 | both tables give their default exactly on unknown levels, and they tell the same known levels apart |
| Utils.TruncateText | utils.py:85-98 | text that fits is returned unchanged. Longer text becomes a prefix of the input followed by "...", exactly `max_length` long for `max_length >= 3`. For smaller limits the negative slice makes the result longer than the limit |
| Utils.ValidateTopic | utils.py:101-120 | valid exactly when the topic is non-empty, at least 3 characters after stripping and at most 500 raw characters; each message is returned exactly when its check is the first to fail, and a valid topic gets the empty message |
| Utils.BlankTopicIsTooShort | utils.py:111-115 | a non-empty all-whitespace topic is rejected as too short, not as empty |
| Utils.PaddingCountsOnlyAgainstMaximum | utils.py:114-118 | whitespace padding is ignored by the minimum-length check but counted by the maximum-length check |
| FlashcardGenerator.ValidCards | flashcard_generator.py:426-432 | the validation loop over a list: either it raises, or it keeps at most as many cards as it was given |
| FlashcardGenerator.CheckCard | flashcard_generator.py:428-432 | one element under `"question" in card and "answer" in card` and the two lookups: an object is kept or skipped by its keys; a string or list raises when both tests pass and is skipped otherwise; any other value raises. `KeepMeansProjection` states when it keeps |
| FlashcardGenerator.Keepers | flashcard_generator.py:426-432 | the reference filter, front to back; `ValidCardsAreKeepers`, `KeepersMembers` and `KeptCardsComeFromObjects` relate it to the loop and to the input |
| FlashcardGenerator.IterateCards | flashcard_generator.py:427 | `for card in flashcards` on each JSON shape: a list is filtered, a string visits its characters, an object visits its keys, anything else raises; `StringIterationKeepsNothing` and `ProcessReply` state the outcomes |
| FlashcardGenerator.FlashcardsField | flashcard_generator.py:422-423 | `"flashcards" in parsed` then `parsed["flashcards"]` on each shape: found, missing, or raising; `ProcessReply` states the result of each case |
| FlashcardGenerator.KeepCardsResult | flashcard_generator.py:434-450 | kept cards succeed, none kept gives the no-valid-cards error with the raw excerpt, a raise gives the API error; stated through `ProcessReply` |
| FlashcardGenerator.ValidCardsAreKeepers | flashcard_generator.py:426-432 | the loop raises exactly when some element raises under `in`/indexing; otherwise it keeps exactly the object cards with both keys, in input order |
| FlashcardGenerator.KeptCardsComeFromObjects | flashcard_generator.py:428-432 | a card is kept exactly when some input element is an object with both keys whose question and answer values it copies unchanged |
| FlashcardGenerator.KeepMeansProjection | flashcard_generator.py:428-432 | one element is kept as a given card exactly when it is an object whose "question" and "answer" are that card's values |
| FlashcardGenerator.KeepersMembers | flashcard_generator.py:426-432 | the reference filter holds a card exactly when some element is kept as that card |
| FlashcardGenerator.FilterValidCards | flashcard_generator.py:426-432 | the loop with `append` computes the filter, including the early exit on a raising element |
| FlashcardGenerator.StringIterationKeepsNothing | flashcard_generator.py:427-428 | iterating a string visits one-character strings, none of which is kept or raises |
| FlashcardGenerator.ProcessReply | flashcard_generator.py:422-455 | success exactly when the parsed reply is an object whose "flashcards" list keeps at least one card, and then the result is the filtered list. A found field that iterates without keeping a card (an empty list, a string, an object) gives "No valid flashcards found in response" with the first 500 characters as the raw response. An unparsed, falsy or key-less reply gives the parse-failure message with the first 200 characters. A raising lookup or iteration gives "API error: " and the exception text |
| FlashcardGenerator.BraceCandidate | flashcard_generator.py:364-371 | a candidate exists exactly when some `{` comes before some `}`; it starts with `{`, ends with `}`, and spans from the first `{` to the last `}` |
| FlashcardGenerator.FirstSome | flashcard_generator.py:341-381 | the stages fail together exactly when each fails; otherwise the result is the first stage that succeeded |
| FlashcardGenerator.FencedStages | flashcard_generator.py:348-360 | one stage per pattern, in list order |
| FlashcardGenerator.FencedStage | flashcard_generator.py:354-360 | one fenced pattern: a match whose group 1, stripped, parses; a missing group or a failed parse moves on. `FencedStagesInOrder` and `SearchFencedBlocks` use it |
| FlashcardGenerator.LateStages | flashcard_generator.py:364-379 | the brace slice, then the bare-list match wrapped as `{"flashcards": ...}`; `SearchLateStages` computes its first success |
| FlashcardGenerator.Stages | flashcard_generator.py:341-379 | all stages in source order; `StagesInOrder` and `ParseFailsOnlyWhenEveryStageFails` state how the first success is chosen |
| FlashcardGenerator.ParsedReply | flashcard_generator.py:327-381 | the value `parse_json_response` returns; `ParseJsonResponse` is proved to compute it and `DirectParseWins` states its first stage |
| FlashcardGenerator.SearchFencedBlocks | flashcard_generator.py:353-360 | the loop over the patterns returns the first fenced block that parses, or nothing |
| FlashcardGenerator.SearchLateStages | flashcard_generator.py:364-379 | the brace slice is tried before the array match, and the result is the first of the two that parses |
| FlashcardGenerator.ParseJsonResponse | flashcard_generator.py:327-381 | the parse is the first success, in order, of: the direct parse, the fenced patterns, the brace slice and the array match |
| FlashcardGenerator.StagesInOrder | flashcard_generator.py:341-381 | a stage is tried only when every earlier stage failed |
| FlashcardGenerator.DirectParseWins | flashcard_generator.py:341-345 | a reply that parses directly is returned as parsed |
| FlashcardGenerator.ParseFailsOnlyWhenEveryStageFails | flashcard_generator.py:341-381 | no result means the direct parse, every fenced pattern, the brace slice and the bare-array match all failed |
| FlashcardGenerator.ClientKey | flashcard_generator.py:121-133 | the session key is used when truthy, else the environment key; there is no key exactly when neither is truthy |
| FlashcardGenerator.GenerateFlashcards | flashcard_generator.py:384-466 | a blocked spending check returns its message; a missing key returns the no-key message; a failed call returns "API error: " and its message. It succeeds exactly when all gates pass, the call replied and the parsed reply has a card list with at least one kept card; the result is then the filtered cards; once the call has replied, the result is exactly `ProcessReply` of the parsed reply, so its no-valid-cards, parse-failure and raised-error results carry over |
| FlashcardGenerator.AgeDescription | flashcard_generator.py:489 | level 5 selects "5-year-old" and every other level "10-year-old" |
| FlashcardGenerator.GenerateText | flashcard_generator.py:469-543 | success exactly when spending is allowed, a key exists and the call replied, with the stripped reply as text; a blocked check returns its message, a missing key the no-key message, a failed call "API error: " and its message |
| FlashcardGenerator.GenerateEliExplanation | flashcard_generator.py:469-543 | the explanation follows the shared generator outcome; a blocked spending check returns its message |
| FlashcardGenerator.GenerateMnemonic | flashcard_generator.py:546-654 | the mnemonic follows the shared generator outcome; a blocked spending check returns its message |
| FlashcardGenerator.SpendingLimitBlocksGeneration | flashcard_generator.py:397-402 | with spending blocked, all three generators (also at lines 482-487 and 558-563) return the limit message whatever the key and reply |
| ExplanationCache.LevelNumber | flashcard_generator.py:489 | ELI5 asks for the 5-year-old prompt and ELI10 for the 10-year-old one |
| ExplanationCache.GetExplanation | database.py:259-285 | nothing is returned exactly when the row is missing or its text is empty |
| ExplanationCache.SaveExplanation | database.py:236-256 | the saved text reads back (as nothing when empty), and every other card and column is unchanged |
| ExplanationCache.CacheThenGenerate | pages/3_Review.py:302-329 | a stored text is shown exactly when truthy; otherwise a successful generation is shown, or the prefixed error |
| ExplanationCache.StoredExplanationIgnoresGenerator | pages/3_Review.py:304-309 | a stored text does not depend on the generator's answer |
| ExplanationCache.StoreAfter | pages/3_Review.py:319-320 | the store changes only after a successful generation |
| ExplanationCache.GeneratedExplanationIsReused | pages/3_Review.py:302-320 | after generating and saving, the next request is served from the store, unless the generated text was empty |
| ExplanationCache.FailedGenerationIsRetried | pages/3_Review.py:327-328 | a failed generation leaves the store unchanged |
| AnkiReview.Step | pages/3_Review.py:219-445 | every button press keeps the four-entry shape of the counter |
| AnkiReview.Run | pages/3_Review.py:219-445 | so does any sequence of presses |
| AnkiReview.AfterSelectDeck | pages/3_Review.py:219-223 | the deck-change handler; `ResetsStartOver` and `NewDeckIsValid` state its effect |
| AnkiReview.AfterShowAnswer | pages/3_Review.py:270-273 | the Show Answer handler; `ShowAnswerRecordsReview` and `CompletionOnLastAnswer` state its effect |
| AnkiReview.ShowAnswerCalls | pages/3_Review.py:272 | the review-count call of Show Answer; stated by `ShowAnswerRecordsReview` |
| AnkiReview.AfterExplainSimply | pages/3_Review.py:288-291 | the Explain Simply toggle; `PanelButtonsAreExclusive` states its effect |
| AnkiReview.AfterMemoryTrick | pages/3_Review.py:293-297 | the Memory Trick toggle; `PanelButtonsAreExclusive` states its effect |
| AnkiReview.AfterRate | pages/3_Review.py:368-376 | `rate_card`; `RateCardEffect`, `AgainHoldsPosition`, `NoRatingOnQuestionSide` and `LastCardStaysAfterRating` state its effect |
| AnkiReview.RateCalls | pages/3_Review.py:369 | the scheduler call of `rate_card`; stated by `RateCardEffect` and `NoRatingOnQuestionSide` |
| AnkiReview.AfterPrev | pages/3_Review.py:403-408 | the Prev handler; `NavigationBounds` states its effect |
| AnkiReview.AfterFlip | pages/3_Review.py:411-416 | the Flip handler; `FlipHidesAnswer` states its effect |
| AnkiReview.FlipHidesAnswer | pages/3_Review.py:411-416 | on the answer side Flip hides the answer and closes both panels, keeping the card, the counters and the deck; on the question side, where it is not rendered, it changes nothing |
| AnkiReview.AfterNext | pages/3_Review.py:419-424 | the Next handler; `NavigationBounds` states its effect |
| AnkiReview.DeckCompleted | pages/3_Review.py:427 | the completion condition; `CompletionOnLastAnswer` and `LastCardStaysAfterRating` state when it holds |
| AnkiReview.AfterStudyAgain | pages/3_Review.py:441-445 | the Study Again handler; `ResetsStartOver` states its effect |
| AnkiReview.PanelCalls | pages/3_Review.py:320-351 | the saves one render makes, one per freshly generated panel; `AtMostOnePanel` bounds them and `Eli5SavedOnlyWhenGenerated`/`MnemonicSavedOnlyWhenGenerated` say when each happens |
| AnkiReview.StepPreservesValid | pages/3_Review.py:270-445 | every button keeps the index inside the deck and never leaves both panels open |
| AnkiReview.RunPreservesValid | pages/3_Review.py:270-445 | any sequence of presses within one deck keeps the invariant |
| AnkiReview.InitialSessionValid | pages/3_Review.py:171-182 | the first-run defaults satisfy the invariant for any non-empty deck |
| AnkiReview.RateCardEffect | pages/3_Review.py:368-376 | the rated counter rises by one and the others stay; the index advances exactly when the rating is not "again" and the card is not the last; the answer and both panels are hidden; the scheduler is called once with the card and rating |
| AnkiReview.NoRatingOnQuestionSide | pages/3_Review.py:259-274 | with the question showing there are no rating buttons, so nothing changes and nothing is scheduled |
| AnkiReview.ShowAnswerRecordsReview | pages/3_Review.py:270-273 | Show Answer turns the card over, changes nothing else and records one review |
| AnkiReview.PanelButtonsAreExclusive | pages/3_Review.py:288-297 | on the answer side each panel button toggles its own panel, closes the other and changes nothing else; on the question side, where they are not rendered, neither changes anything |
| AnkiReview.NavigationBounds | pages/3_Review.py:403-424 | away from the first card Prev moves back one and away from the last card Next moves on one, each hiding the answer, closing both panels and keeping the counters and the deck; both do nothing at the ends and undo each other in between |
| AnkiReview.AgainHoldsPosition | pages/3_Review.py:371-372 | "again" keeps the index |
| AnkiReview.CompletionOnLastAnswer | pages/3_Review.py:427 | Show Answer brings up the completion block exactly on the last card. Flip and rating hide it. Prev and Next show it only when they do nothing |
| AnkiReview.LastCardStaysAfterRating | pages/3_Review.py:371-372 | rating the last card keeps it current, so the completion block returns once its answer is shown again |
| AnkiReview.ResetsStartOver | pages/3_Review.py:219-223 | a new deck is selected and restarts at the first card with the question showing and zeroed counters, keeping the panel flags; reselecting the same deck changes nothing; Study Again on completion (lines 441-445) restarts the same way and keeps the deck and the panel flags, and outside the completion block, where it is not rendered, it changes nothing |
| AnkiReview.NewDeckIsValid | pages/3_Review.py:219-223 | after a deck change the state is valid for the new deck's size |
| AnkiReview.CountersOnlyGrow | pages/3_Review.py:370 | without a deck change or Study Again, no counter decreases |
| AnkiReview.Eli5Panel | pages/3_Review.py:300-329 | the ELI5 panel is shown exactly when the answer and its flag are on; a stored text is shown as stored; with nothing stored, the generated text is shown, or "Error: " and the generator's error |
| AnkiReview.MnemonicPanel | pages/3_Review.py:332-360 | the memory-trick panel is shown exactly when the answer and its flag are on; a stored mnemonic is shown as stored; with nothing stored, the generated text is shown, or "Error: " and the generator's error |
| AnkiReview.Eli5SavedOnlyWhenGenerated | pages/3_Review.py:300-329 | the ELI5 text is saved exactly when its panel is open, nothing is stored and the generator succeeded with that text |
| AnkiReview.MnemonicSavedOnlyWhenGenerated | pages/3_Review.py:332-360 | the mnemonic is saved exactly when its panel is open, nothing is stored and the generator succeeded with that text |
| AnkiReview.AtMostOnePanel | pages/3_Review.py:288-360 | one render shows at most one panel and makes at most one save |
| AnkiReview.ReviewPage.constructor | pages/3_Review.py:171-182 | the first-run defaults |
| AnkiReview.ReviewPage.SelectDeck | pages/3_Review.py:219-223 | the state becomes that of the deck-change transition |
| AnkiReview.ReviewPage.PressShowAnswer | pages/3_Review.py:270-273 | the Show Answer transition and its review-count call |
| AnkiReview.ReviewPage.PressExplainSimply | pages/3_Review.py:288-291 | the Explain Simply toggle |
| AnkiReview.ReviewPage.PressMemoryTrick | pages/3_Review.py:293-297 | the Memory Trick toggle |
| AnkiReview.ReviewPage.RateCard | pages/3_Review.py:368-376 | the `rate_card` transition and its scheduler call |
| AnkiReview.ReviewPage.PressPrev | pages/3_Review.py:403-408 | the Prev transition |
| AnkiReview.ReviewPage.PressFlip | pages/3_Review.py:411-416 | the Flip transition |
| AnkiReview.ReviewPage.PressNext | pages/3_Review.py:419-424 | the Next transition |
| AnkiReview.ReviewPage.PressStudyAgain | pages/3_Review.py:441-445 | the Study Again transition |
| AnkiReview.ReviewPage.IsDeckCompleted | pages/3_Review.py:427 | true exactly on the last card with its answer shown |
| SimpleReview.AfterJump | pages/2_Review.py:236-245 | Go to Card lands on index `jump_to - 1` inside the deck, with the question showing; the deck and both session explanations are kept |
| SimpleReview.AfterSelectDeck | pages/2_Review.py:77-80 | the deck-change reset; `TransitionsKeepPosition` states its effect |
| SimpleReview.AfterPrevious | pages/2_Review.py:140-143 | the Previous handler; `NavigationBounds` states its effect |
| SimpleReview.AfterFlip | pages/2_Review.py:146-152 | the flip toggle; `FlipFacts` states its effect |
| SimpleReview.FlipCalls | pages/2_Review.py:150-151 | the review-count call on revealing; `FlipFacts` states when it happens |
| SimpleReview.AfterNext | pages/2_Review.py:155-158 | the Next handler; `NavigationBounds` states its effect |
| SimpleReview.ExplainOutcome | pages/2_Review.py:168-186 | cache-then-generate for one level, with the page's error prefix; stated by `ExplanationCache.CacheThenGenerate` |
| SimpleReview.GeneratedAtItsLevel | pages/2_Review.py:168-207 | with nothing stored, a button asks `generate_eli_explanation` at its own level (5 or 10); its stripped reply goes into that level's slot for the card and is saved; a gate or API error leaves the session and the store unchanged |
| SimpleReview.AfterExplain | pages/2_Review.py:168-207 | the session slot after an explanation button; `ExplanationStaysWithItsCard` and `QuestionSideHasNoExplanations` state its effect |
| SimpleReview.StoreAfterExplain | pages/2_Review.py:182-203 | the store after an explanation button; `ExplanationStaysWithItsCard` and `QuestionSideHasNoExplanations` state its effect |
| SimpleReview.DisplayedAsWritten | pages/2_Review.py:210-211 | as written, nothing is shown on the question side; on the answer side a truthy stored text is shown, else a non-empty session text whatever card it came from, else nothing |
| SimpleReview.StaleExplanationShownAsWritten | pages/2_Review.py:168-211 | as written, a card with nothing stored shows the text generated for the previous card |
| SimpleReview.DisplayedExplanation | pages/2_Review.py:210-211 | corrected: the shown text is a stored text or a session text generated for this very card, and a stored text always wins |
| SimpleReview.CorrectionOnlyDropsOtherCards | pages/2_Review.py:210-211 | the correction changes nothing while the session text belongs to the current card |
| SimpleReview.ExplanationStaysWithItsCard | pages/2_Review.py:168-211 | after a successful explanation button, that card shows the stored or generated text (unless empty), every other card shows exactly its own store entry, which is unchanged, and the other level's slot is untouched; after a failure nothing changes |
| SimpleReview.TransitionsKeepPosition | pages/2_Review.py:77-207 | every button keeps the index inside the deck; a new deck is selected and restarts at its first card with the question showing, keeping both session explanations; reselecting the same deck changes nothing |
| SimpleReview.FlipFacts | pages/2_Review.py:146-152 | Flip is an involution, and of a flip and its undo exactly one records a review: the one that reveals the answer |
| SimpleReview.NavigationBounds | pages/2_Review.py:140-158 | away from the first card Previous moves back one and away from the last card Next moves on one, each hiding the answer and keeping the deck and the session explanations; both do nothing at the ends, and Previous undoes Next |
| SimpleReview.QuestionSideHasNoExplanations | pages/2_Review.py:161-211 | with the question showing, the explanation buttons cannot change the session or store, and nothing is displayed |
| SimpleReview.SimpleViewer.constructor | pages/2_Review.py:44-49 | the first-run defaults, with no explanation in the session |
| SimpleReview.SimpleViewer.SelectDeck | pages/2_Review.py:77-80 | the deck-change transition |
| SimpleReview.SimpleViewer.PressPrevious | pages/2_Review.py:140-143 | the Previous transition |
| SimpleReview.SimpleViewer.PressFlip | pages/2_Review.py:146-152 | the Flip toggle and its review-count call |
| SimpleReview.SimpleViewer.PressNext | pages/2_Review.py:155-158 | the Next transition |
| SimpleReview.SimpleViewer.JumpTo | pages/2_Review.py:236-245 | the Go to Card transition |
| SimpleReview.SimpleViewer.PressExplain | pages/2_Review.py:168-207 | the ELI5/ELI10 button: the session slot and the store after cache-then-generate |
| SimpleReview.SimpleViewer.ShownExplanation | pages/2_Review.py:210-211 | the explanation shown, in the corrected form |

## Left out

- The spaced-repetition scheduler is modelled only as the calls the page makes. That covers `update_card_progress`, `get_next_intervals` and `init_spaced_repetition_table`, imported at pages/3_Review.py:13-15. Their definitions are not part of this model, so no interval or ease arithmetic is modelled.
- `get_mnemonic` and `save_mnemonic` are likewise not part of this model. The stored mnemonic is a parameter of `AnkiReview.MnemonicPanel`, and the save is a recorded call.
- The rest of database.py is a wrapper over SQLite, so its SQL (schema, CRUD, review counts) is left out. Only the explanation column read and write are modelled.
- The Anthropic client, the prompt templates and the token counts are network calls and text templating. The reply is a parameter (`ApiReply`).
- `json.loads` and `re.search` are foreign parsers, so they are oracles. The search oracle receives the regex texts from `PatternText`; their matching is not modelled.
- Cost tracking uses file I/O and floating-point dollar amounts. The spending check is a parameter (`SpendingCheck`), and `cost_info` is not part of the results.
- FlashcardGenerator.ProcessReply: a Python exception raised on an unexpected reply shape is modelled as "API error: " followed by an opaque message parameter. The exact TypeError wording is not modelled.
- An exception from the client call is modelled as a failed reply carrying its message. The exception's text itself is not modelled.
- JSON numbers are reals, so `1` and `1.0`, which Python keeps apart as `int` and `float` (and prints differently), are the same value here. NaN and infinities, which `json.loads` accepts, are not represented.
- Date formatting, the progress-bar percentages and the deck labels in the selectors are presentation built on floats and `strftime`, so they are left out.
- The other pages, app.py and all CSS are left out as layout and network glue.
- Utils.ComplexityEmoji: the literals at utils.py:60-64 are mojibake, the cp1252 reading of the emoji's UTF-8 bytes (the Beginner entry is U+00F0 U+0178 U+0152 U+00B1), so the program returns and displays those four-character strings. The model returns the intended single code points U+1F331, U+1F33F, U+1F333 and U+1F4DA instead.
- Utils.ValidateTopic: the long-topic message says "less than 500 characters", yet exactly 500 characters is accepted. The model follows the code.
- AnkiReview: a deck change and Study Again leave `show_eli5`/`show_mnemonic` as they were. The model keeps this. Rating and navigation clear those flags, and the explanation panels render only on the answer side, so the stale flags show nothing until the answer is revealed.
- SimpleReview: an error from generation is reported just before a rerun, so it is never seen. The model treats a failed generation as changing nothing.
- ExplanationCache.SaveExplanation: the store is a map from card and level, so a save for a card id with no row makes the text readable. The source's `UPDATE … WHERE id = ?` (database.py:249-253) writes nothing for such an id. Both pages save only for the card just loaded from the store, so this case does not arise from them.
- The Study button of pages/2_Decks.py:197-198 writes `selected_cardset` directly and switches to the study page. This bypasses the reset at pages/3_Review.py:219-223. Depending on how Streamlit keeps the selectbox's value across pages, the page may then switch to the first deck, or keep another deck's index and counters. AnkiReview's invariants cover only the study page's own widgets.
- SimpleReview.SimpleViewer.JumpTo requires `1 <= jump_to <= total_cards`, because the number input admits only those values.
- Streamlit runs the page once per interaction, and the model treats each button press as one atomic transition. Concurrent sessions are not modelled.

## Findings

| source | as written | input that shows it | evidently intended | confidence | as-written member | corrected member |
|---|---|---|---|---|---|---|
| pages/2_Review.py:210-211 | the explanation shown under an answer falls back to the session's `eli5_explanation`/`eli10_explanation`, which is not tied to any card | deck with cards 1 and 2, nothing stored; show card 1's answer, press ELI5 (generates "X"), press Next, show the answer: card 2 shows "X" | the session fallback applies only to the card it was generated for | high, not executed | SimpleReview.StaleExplanationShownAsWritten | SimpleReview.DisplayedExplanation |
