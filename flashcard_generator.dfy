/**
 * Post-processing of the model's replies in the generator: the staged JSON
 * fallback of `parse_json_response`, the card filter of `generate_flashcards`,
 * the explanation and mnemonic generators, and the spending-limit and API-key
 * gates that run before any client exists. The Anthropic call, `json.loads`,
 * `re.search` and the spending check are oracles given as parameters.
 */
module FlashcardGenerator {
  import opened Wrappers
  import opened PyStr

  /** A value `json.loads` can return. Numbers are reals, integers and floats alike. */
  datatype Json =
    | JNull
    | JBool(b: bool)
    | JNum(n: real)
    | JStr(s: string)
    | JArr(items: seq<Json>)
    | JObj(fields: map<string, Json>)

  /** Python truthiness of a parsed value (`if parsed`). */
  predicate JsonTruthy(j: Json) {
    match j
    case JNull => false
    case JBool(b) => b
    case JNum(n) => n != 0.0
    case JStr(s) => s != ""
    case JArr(xs) => xs != []
    case JObj(m) => m != map[]
  }

  /** One kept flashcard: the question and answer values of the reply, copied unchanged. */
  datatype Card = Card(question: Json, answer: Json)

  /**
   * What the validation loop does with one element `card` of the flashcards list:
   * `"question" in card and "answer" in card` is a key test on an object, a
   * substring test on a string and a membership test on a list; on anything else
   * `in` raises a TypeError, and so does `card["question"]` on a string or a list.
   */
  datatype CardCheck = Keep(card: Card) | Skip | Raise

  function CheckCard(card: Json): CardCheck {
    match card
    case JObj(m) =>
      if "question" in m && "answer" in m then Keep(Card(m["question"], m["answer"])) else Skip
    case JStr(s) => if StringCardRaises(s) then Raise else Skip
    case JArr(xs) => if JStr("question") in xs && JStr("answer") in xs then Raise else Skip
    case _ => Raise
  }

  predicate StringCardRaises(s: string) {
    Contains(s, "question") && Contains(s, "answer")
  }

  predicate IsKeep(card: Json) {
    CheckCard(card).Keep?
  }

  /**
   * The `valid_cards` the loop builds; `None` when a card makes it raise. Written
   * element by element from the end, the way the loop's `append` extends it.
   */
  function ValidCards(cards: seq<Json>): (r: Option<seq<Card>>)
    ensures r.Some? ==> |r.value| <= |cards|
  {
    if cards == [] then Some([])
    else
      match ValidCards(cards[..|cards| - 1])
      case None => None
      case Some(kept) =>
        match CheckCard(cards[|cards| - 1])
        case Keep(c) => Some(kept + [c])
        case Skip => Some(kept)
        case Raise => None
  }

  /** Reference definition of the accepted cards, read from the front: filter, then project. */
  function Keepers(cards: seq<Json>): seq<Card> {
    if cards == [] then []
    else (if IsKeep(cards[0]) then [CheckCard(cards[0]).card] else []) + Keepers(cards[1..])
  }

  lemma {:induction false} KeepersAppend(a: seq<Json>, b: seq<Json>)
    ensures Keepers(a + b) == Keepers(a) + Keepers(b)
  {
    if a == [] {
      assert a + b == b;
    } else {
      assert (a + b)[0] == a[0];
      assert (a + b)[1..] == a[1..] + b;
      KeepersAppend(a[1..], b);
    }
  }

  /**
   * The loop fails exactly when some card raises; otherwise it keeps exactly the
   * cards that have both keys, in input order, each projected to its question
   * and answer.
   */
  lemma {:induction false} ValidCardsAreKeepers(cards: seq<Json>)
    ensures ValidCards(cards).None? <==> exists i :: 0 <= i < |cards| && CheckCard(cards[i]).Raise?
    ensures ValidCards(cards).Some? ==> ValidCards(cards).value == Keepers(cards)
  {
    if cards != [] {
      var init := cards[..|cards| - 1];
      var last := cards[|cards| - 1];
      ValidCardsAreKeepers(init);
      assert cards == init + [last];
      KeepersAppend(init, [last]);
      assert Keepers([last]) == (if IsKeep(last) then [CheckCard(last).card] else []) + Keepers([]);
      if ValidCards(init).None? {
        var i :| 0 <= i < |init| && CheckCard(init[i]).Raise?;
        assert cards[i] == init[i];
      }
      if CheckCard(last).Raise? {
        assert cards[|cards| - 1] == last;
      }
      forall i | 0 <= i < |cards| && CheckCard(cards[i]).Raise?
        ensures ValidCards(cards).None?
      {
        if i < |init| {
          assert init[i] == cards[i];
        }
      }
    }
  }

  /** `card` is an object with both keys, and `c` holds their values. */
  predicate ProjectsTo(card: Json, c: Card) {
    card.JObj? && "question" in card.fields && "answer" in card.fields &&
    c == Card(card.fields["question"], card.fields["answer"])
  }

  /** Every kept card comes from an input object with both keys, and every such object is kept. */
  lemma KeptCardsComeFromObjects(cards: seq<Json>, c: Card)
    requires ValidCards(cards).Some?
    ensures c in ValidCards(cards).value <==> exists i :: 0 <= i < |cards| && ProjectsTo(cards[i], c)
  {
    ValidCardsAreKeepers(cards);
    KeepersMembers(cards, c);
    forall i | 0 <= i < |cards| ensures CheckCard(cards[i]) == Keep(c) <==> ProjectsTo(cards[i], c) {
      KeepMeansProjection(cards[i], c);
    }
  }

  lemma KeepMeansProjection(card: Json, c: Card)
    ensures CheckCard(card) == Keep(c) <==> ProjectsTo(card, c)
  {
    match card
    case JObj(m) =>
    case JStr(s) =>
    case JArr(xs) =>
    case _ =>
  }

  lemma {:induction false} KeepersMembers(cards: seq<Json>, c: Card)
    ensures c in Keepers(cards) <==> exists i :: 0 <= i < |cards| && CheckCard(cards[i]) == Keep(c)
  {
    if cards != [] {
      KeepersMembers(cards[1..], c);
      if c in Keepers(cards[1..]) {
        var i :| 0 <= i < |cards[1..]| && CheckCard(cards[1..][i]) == Keep(c);
        assert cards[i + 1] == cards[1..][i];
      }
      forall i | 0 <= i < |cards| && CheckCard(cards[i]) == Keep(c) ensures c in Keepers(cards) {
        if i > 0 {
          assert cards[1..][i - 1] == cards[i];
        }
      }
    }
  }

  /**
   * The validation loop over a flashcards list, with its early exit on the card
   * that raises: the list it builds is the one `ValidCards` describes.
   */
  method FilterValidCards(flashcards: seq<Json>) returns (validCards: Option<seq<Card>>)
    ensures validCards == ValidCards(flashcards)
  {
    var kept: seq<Card> := [];
    var i := 0;
    while i < |flashcards|
      invariant 0 <= i <= |flashcards|
      invariant ValidCards(flashcards[..i]) == Some(kept)
    {
      assert flashcards[..i + 1][..i] == flashcards[..i];
      match CheckCard(flashcards[i]) {
        case Keep(c) =>
          kept := kept + [c];
        case Skip =>
        case Raise =>
          RaisePropagates(flashcards, i + 1);
          return None;
      }
      i := i + 1;
    }
    assert flashcards[..i] == flashcards;
    validCards := Some(kept);
  }

  /** Once a prefix raises, so does the whole list. */
  lemma {:induction false} RaisePropagates(cards: seq<Json>, n: nat)
    requires n <= |cards| && ValidCards(cards[..n]).None?
    ensures ValidCards(cards).None?
    decreases |cards| - n
  {
    if n < |cards| {
      assert cards[..n + 1][..n] == cards[..n];
      RaisePropagates(cards, n + 1);
    } else {
      assert cards[..n] == cards;
    }
  }

  /** The characters of a string, which is what `for card in s` visits. */
  function Chars(s: string): (r: seq<Json>)
    ensures |r| == |s| && forall i :: 0 <= i < |s| ==> r[i] == JStr([s[i]])
  {
    if s == [] then [] else [JStr([s[0]])] + Chars(s[1..])
  }

  /** A one-character string contains neither key, so iterating a string keeps nothing. */
  lemma {:induction false} StringIterationKeepsNothing(s: string)
    ensures ValidCards(Chars(s)) == Some([])
  {
    var cs := Chars(s);
    forall i | 0 <= i < |cs| ensures CheckCard(cs[i]) == Skip {
      ShorterNotContains([s[i]], "question");
    }
    ValidCardsAreKeepers(cs);
    KeepersNone(cs);
  }

  lemma {:induction false} KeepersNone(cards: seq<Json>)
    requires forall i :: 0 <= i < |cards| ==> CheckCard(cards[i]) == Skip
    ensures Keepers(cards) == []
  {
    if cards != [] {
      assert forall i :: 0 <= i < |cards[1..]| ==> cards[1..][i] == cards[i + 1];
      KeepersNone(cards[1..]);
    }
  }

  /**
   * `for card in flashcards` on whatever `parsed["flashcards"]` holds: a list is
   * filtered; a string visits its characters; an object visits its keys, which
   * are strings, so the order of the keys cannot change the outcome; anything
   * else is not iterable and raises.
   */
  function IterateCards(v: Json): Option<seq<Card>> {
    match v
    case JArr(xs) => ValidCards(xs)
    case JStr(s) => ValidCards(Chars(s))
    case JObj(m) => if exists k :: k in m && StringCardRaises(k) then None else Some([])
    case _ => None
  }

  /** The result of `"flashcards" in parsed` followed by `parsed["flashcards"]`. */
  datatype Lookup = Found(value: Json) | Missing | Raises

  function FlashcardsField(parsed: Json): Lookup {
    match parsed
    case JObj(m) => if "flashcards" in m then Found(m["flashcards"]) else Missing
    case JStr(s) => if Contains(s, "flashcards") then Raises else Missing
    case JArr(xs) => if JStr("flashcards") in xs then Raises else Missing
    case _ => Raises
  }

  /** The dictionary `generate_flashcards` returns. */
  datatype GenerationResult =
    | Generated(flashcards: seq<Card>)
    | Rejected(error: string, rawResponse: Option<string>)

  const NoValidCardsError: string := "No valid flashcards found in response"
  const ApiErrorPrefix: string := "API error: "
  const ParseFailurePrefix: string := "Could not parse flashcards from AI response. Response starts with: "
  const RawResponseLength: nat := 500
  const ParseFailureExcerptLength: nat := 200

  function ParseFailureMessage(responseText: string): string {
    ParseFailurePrefix + SliceTo(responseText, ParseFailureExcerptLength) + "..."
  }

  /** The reply's flashcards field, when it is a list. */
  predicate HasCardList(parsed: Option<Json>) {
    parsed.Some? && parsed.value.JObj? && "flashcards" in parsed.value.fields &&
    parsed.value.fields["flashcards"].JArr?
  }

  function CardList(parsed: Option<Json>): seq<Json>
    requires HasCardList(parsed)
  {
    parsed.value.fields["flashcards"].items
  }

  /**
   * Everything `generate_flashcards` does with the reply once it has been parsed.
   * A TypeError Python raises on an unexpected shape is caught as an API error;
   * `pythonError` stands for the text of that exception.
   */
  function ProcessReply(responseText: string, parsed: Option<Json>, pythonError: string): (r: GenerationResult)
    ensures r.Generated? <==>
      HasCardList(parsed) && ValidCards(CardList(parsed)).Some? && ValidCards(CardList(parsed)).value != []
    ensures r.Generated? ==> r.flashcards == Keepers(CardList(parsed))
    ensures HasCardList(parsed) && ValidCards(CardList(parsed)) == Some([]) ==>
      r == Rejected(NoValidCardsError, Some(SliceTo(responseText, RawResponseLength)))
    ensures r.Rejected? && r.rawResponse.Some? ==>
      r == Rejected(NoValidCardsError, Some(SliceTo(responseText, RawResponseLength)))
    ensures parsed.None? || !JsonTruthy(parsed.value) || FlashcardsField(parsed.value).Missing? ==>
      r == Rejected(ParseFailureMessage(responseText), None)
    ensures (parsed.Some? && JsonTruthy(parsed.value) && FlashcardsField(parsed.value).Found? &&
             IterateCards(FlashcardsField(parsed.value).value) == Some([])) ==>
      r == Rejected(NoValidCardsError, Some(SliceTo(responseText, RawResponseLength)))
    ensures (parsed.Some? && JsonTruthy(parsed.value) &&
             (FlashcardsField(parsed.value).Raises? ||
              (FlashcardsField(parsed.value).Found? && IterateCards(FlashcardsField(parsed.value).value).None?))) ==>
      r == Rejected(ApiErrorPrefix + pythonError, None)
  {
    if parsed.None? || !JsonTruthy(parsed.value) then
      Rejected(ParseFailureMessage(responseText), None)
    else
      match FlashcardsField(parsed.value)
      case Missing => Rejected(ParseFailureMessage(responseText), None)
      case Raises => Rejected(ApiErrorPrefix + pythonError, None)
      case Found(v) =>
        assert parsed.value.JObj?;
        if v.JArr? then
          ValidCardsAreKeepers(v.items);
          KeepCardsResult(responseText, ValidCards(v.items), pythonError)
        else if v.JStr? then
          StringIterationKeepsNothing(v.s);
          KeepCardsResult(responseText, IterateCards(v), pythonError)
        else
          KeepCardsResult(responseText, IterateCards(v), pythonError)
  }

  function KeepCardsResult(responseText: string, kept: Option<seq<Card>>, pythonError: string): GenerationResult {
    match kept
    case None => Rejected(ApiErrorPrefix + pythonError, None)
    case Some(cards) =>
      if cards != [] then Generated(cards)
      else Rejected(NoValidCardsError, Some(SliceTo(responseText, RawResponseLength)))
  }

  /** An `re.search` match: the whole match (`group(0)`) and the captured groups from 1 on. */
  datatype RegexMatch = RegexMatch(whole: string, groups: seq<string>)

  /** The regular expressions the parser searches with; the search oracle is given their text. */
  datatype Pattern = FencedJson | FencedAny | BareCardList

  /** The text of each pattern. */
  function PatternText(p: Pattern): string {
    match p
    case FencedJson => @"```json\s*([\s\S]*?)\s*```"
    case FencedAny => @"```\s*([\s\S]*?)\s*```"
    case BareCardList => @"\[\s*\{[\s\S]*""question""[\s\S]*""answer""[\s\S]*\}\s*\]"
  }

  /** The fenced-block patterns, tried in this order. */
  const JsonPatterns: seq<Pattern> := [FencedJson, FencedAny]

  /** `candidate` is the slice of `cleaned` at `start`, with no `{` before it and no `}` after it. */
  predicate OuterBraceSpan(cleaned: string, start: int, candidate: string) {
    0 <= start && start + |candidate| <= |cleaned| &&
    cleaned[start..start + |candidate|] == candidate &&
    '{' !in cleaned[..start] && '}' !in cleaned[start + |candidate|..]
  }

  /**
   * The brace fallback: from the first `{` to the last `}` inclusive, tried only
   * when both exist and the `}` comes after the `{`.
   */
  function BraceCandidate(cleaned: string): (r: Option<string>)
    ensures r.Some? <==> exists i, j :: 0 <= i < j < |cleaned| && cleaned[i] == '{' && cleaned[j] == '}'
    ensures r.Some? ==> |r.value| >= 2 && r.value[0] == '{' && r.value[|r.value| - 1] == '}'
    ensures r.Some? ==> exists start :: OuterBraceSpan(cleaned, start, r.value)
  {
    var first := Find(cleaned, '{');
    var last := RFind(cleaned, '}');
    if first != -1 && last != -1 && last > first then
      var candidate := cleaned[first..last + 1];
      assert cleaned[first + |candidate|..] == cleaned[last + 1..];
      assert OuterBraceSpan(cleaned, first, candidate);
      Some(candidate)
    else
      None
  }

  /** The first stage that produced a value, in stage order; `None` when none did. */
  function FirstSome<T(==)>(stages: seq<Option<T>>): (r: Option<T>)
    ensures r.None? <==> forall i :: 0 <= i < |stages| ==> stages[i].None?
    ensures r.Some? ==>
      exists i :: 0 <= i < |stages| && stages[i] == r && forall j :: 0 <= j < i ==> stages[j].None?
  {
    if stages == [] then None
    else if stages[0].Some? then stages[0]
    else
      var r := FirstSome(stages[1..]);
      assert forall i :: 0 < i < |stages| ==> stages[i] == stages[1..][i - 1];
      if r.Some? then
        var k :| 0 <= k < |stages[1..]| && stages[1..][k] == r && forall j :: 0 <= j < k ==> stages[1..][j].None?;
        assert stages[k + 1] == r;
        r
      else r
  }

  lemma {:induction false} FirstSomeAppend<T>(xs: seq<Option<T>>, ys: seq<Option<T>>)
    ensures FirstSome(xs + ys) == if FirstSome(xs).Some? then FirstSome(xs) else FirstSome(ys)
  {
    if xs == [] {
      assert xs + ys == ys;
    } else {
      assert (xs + ys)[0] == xs[0];
      assert (xs + ys)[1..] == xs[1..] + ys;
      FirstSomeAppend(xs[1..], ys);
    }
  }

  /** A fenced-block stage: the pattern must match, expose group 1, and that group must parse. */
  function FencedStage(pattern: Pattern, cleaned: string, loads: string -> Option<Json>,
                       search: (string, string) -> Option<RegexMatch>): Option<Json>
  {
    match search(PatternText(pattern), cleaned)
    case None => None
    case Some(m) => if |m.groups| >= 1 then loads(Strip(m.groups[0])) else None
  }

  function FencedStages(patterns: seq<Pattern>, cleaned: string, loads: string -> Option<Json>,
                        search: (string, string) -> Option<RegexMatch>): (r: seq<Option<Json>>)
    ensures |r| == |patterns|
  {
    if patterns == [] then []
    else [FencedStage(patterns[0], cleaned, loads, search)] + FencedStages(patterns[1..], cleaned, loads, search)
  }

  /** The last two stages: the brace slice, then the bare list wrapped as `{"flashcards": ...}`. */
  function LateStages(cleaned: string, loads: string -> Option<Json>,
                      search: (string, string) -> Option<RegexMatch>): seq<Option<Json>>
  {
    var brace := match BraceCandidate(cleaned) case None => None case Some(c) => loads(c);
    var list := match search(PatternText(BareCardList), cleaned)
      case None => None
      case Some(m) => (match loads(m.whole) case None => None case Some(j) => Some(JObj(map["flashcards" := j])));
    [brace, list]
  }

  /** Every stage `parse_json_response` tries, in the order it tries them. */
  function Stages(cleaned: string, loads: string -> Option<Json>,
                  search: (string, string) -> Option<RegexMatch>): seq<Option<Json>>
  {
    [loads(cleaned)] + FencedStages(JsonPatterns, cleaned, loads, search) + LateStages(cleaned, loads, search)
  }

  /** The value `parse_json_response` returns for a reply. */
  function ParsedReply(responseText: string, loads: string -> Option<Json>,
                       search: (string, string) -> Option<RegexMatch>): Option<Json>
  {
    FirstSome(Stages(Strip(responseText), loads, search))
  }

  /**
   * `parse_json_response`: direct parse, then each fenced pattern in list order,
   * then the brace slice, then the list match; the first stage that parses wins.
   */
  method ParseJsonResponse(responseText: string, loads: string -> Option<Json>,
                           search: (string, string) -> Option<RegexMatch>) returns (r: Option<Json>)
    ensures r == FirstSome(Stages(Strip(responseText), loads, search))
  {
    var cleaned := Strip(responseText);
    StagesInOrder(cleaned, loads, search);
    var direct := loads(cleaned);
    if direct.Some? {
      return direct;
    }
    r := SearchFencedBlocks(cleaned, loads, search);
    if r.None? {
      r := SearchLateStages(cleaned, loads, search);
    }
  }

  /** The fenced-block loop of `parse_json_response`, with its early return. */
  method SearchFencedBlocks(cleaned: string, loads: string -> Option<Json>,
                            search: (string, string) -> Option<RegexMatch>) returns (r: Option<Json>)
    ensures r == FirstSome(FencedStages(JsonPatterns, cleaned, loads, search))
  {
    ghost var fenced := FencedStages(JsonPatterns, cleaned, loads, search);
    FencedStagesInOrder(JsonPatterns, cleaned, loads, search);
    var i := 0;
    while i < |JsonPatterns|
      invariant 0 <= i <= |JsonPatterns|
      invariant forall k :: 0 <= k < i ==> fenced[k].None?
    {
      var m := search(PatternText(JsonPatterns[i]), cleaned);
      if m.Some? && |m.value.groups| >= 1 {
        var parsed := loads(Strip(m.value.groups[0]));
        if parsed.Some? {
          FirstSomeSkip(fenced, i);
          return parsed;
        }
      }
      i := i + 1;
    }
    FirstSomeSkip(fenced, i);
    return None;
  }

  /** The brace slice, then the bare list of cards. */
  method SearchLateStages(cleaned: string, loads: string -> Option<Json>,
                          search: (string, string) -> Option<RegexMatch>) returns (r: Option<Json>)
    ensures r == FirstSome(LateStages(cleaned, loads, search))
  {
    var candidate := BraceCandidate(cleaned);
    if candidate.Some? {
      var parsed := loads(candidate.value);
      if parsed.Some? {
        return parsed;
      }
    }
    var arrayMatch := search(PatternText(BareCardList), cleaned);
    if arrayMatch.Some? {
      var parsed := loads(arrayMatch.value.whole);
      if parsed.Some? {
        return Some(JObj(map["flashcards" := parsed.value]));
      }
    }
    return None;
  }

  /** The i-th fenced stage belongs to the i-th pattern. */
  lemma {:induction false} FencedStagesInOrder(patterns: seq<Pattern>, cleaned: string, loads: string -> Option<Json>,
                                             search: (string, string) -> Option<RegexMatch>)
    ensures forall k :: 0 <= k < |patterns| ==>
      FencedStages(patterns, cleaned, loads, search)[k] == FencedStage(patterns[k], cleaned, loads, search)
  {
    if patterns != [] {
      FencedStagesInOrder(patterns[1..], cleaned, loads, search);
    }
  }

  /** The first success among all stages is the first among the direct parse, the fenced blocks, the rest. */
  lemma StagesInOrder(cleaned: string, loads: string -> Option<Json>,
                      search: (string, string) -> Option<RegexMatch>)
    ensures var st := Stages(cleaned, loads, search);
      var fenced := FirstSome(FencedStages(JsonPatterns, cleaned, loads, search));
      FirstSome(st) ==
        if loads(cleaned).Some? then loads(cleaned)
        else if fenced.Some? then fenced
        else FirstSome(LateStages(cleaned, loads, search))
  {
    FirstSomeOfThree(loads(cleaned), FencedStages(JsonPatterns, cleaned, loads, search), LateStages(cleaned, loads, search));
  }

  lemma FirstSomeOfThree<T>(first: Option<T>, middle: seq<Option<T>>, last: seq<Option<T>>)
    ensures FirstSome([first] + middle + last) ==
      if first.Some? then first else if FirstSome(middle).Some? then FirstSome(middle) else FirstSome(last)
  {
    assert [first] + middle + last == [first] + (middle + last);
    FirstSomeAppend([first], middle + last);
    FirstSomeAppend(middle, last);
  }

  /** Stages that produced nothing can be skipped. */
  lemma {:induction false} FirstSomeSkip<T>(xs: seq<Option<T>>, n: nat)
    requires n <= |xs| && forall k :: 0 <= k < n ==> xs[k].None?
    ensures FirstSome(xs) == FirstSome(xs[n..])
  {
    if n > 0 {
      assert xs[1..][n - 1..] == xs[n..];
      FirstSomeSkip(xs[1..], n - 1);
    }
  }

  /** What `check_spending_limit` returns; the dollar comparison behind it is not modelled. */
  datatype SpendingCheck = SpendingCheck(allowed: bool, message: string)

  /** The outcome of the API call and of reading its reply text; `Failed` is any other exception. */
  datatype ApiReply = Replied(text: string) | Failed(message: string)

  const NoApiKeyError: string := "No API key found. Please enter your Claude API key on the main page."

  /** `get_client`'s choice of key: the session key, else the environment key, else a ValueError. */
  function ClientKey(sessionKey: Option<string>, envKey: Option<string>): (r: Option<string>)
    ensures r.None? <==> !Truthy(sessionKey) && !Truthy(envKey)
    ensures Truthy(sessionKey) ==> r == sessionKey
    ensures r.Some? ==> r.value != "" && (r == sessionKey || r == envKey)
  {
    if Truthy(sessionKey) then sessionKey
    else if Truthy(envKey) then envKey
    else None
  }

  /** `generate_flashcards(topic, num_cards, complexity)` once the prompt is sent. */
  function GenerateFlashcards(spending: SpendingCheck, sessionKey: Option<string>, envKey: Option<string>,
                              reply: ApiReply, loads: string -> Option<Json>,
                              search: (string, string) -> Option<RegexMatch>, pythonError: string): (r: GenerationResult)
    ensures !spending.allowed ==> r == Rejected(spending.message, None)
    ensures spending.allowed && ClientKey(sessionKey, envKey).None? ==> r == Rejected(NoApiKeyError, None)
    ensures spending.allowed && ClientKey(sessionKey, envKey).Some? && reply.Failed? ==>
      r == Rejected(ApiErrorPrefix + reply.message, None)
    ensures r.Generated? <==>
      spending.allowed && ClientKey(sessionKey, envKey).Some? && reply.Replied? &&
      HasCardList(ParsedReply(reply.text, loads, search)) &&
      ValidCards(CardList(ParsedReply(reply.text, loads, search))).Some? &&
      ValidCards(CardList(ParsedReply(reply.text, loads, search))).value != []
    ensures r.Generated? ==>
      r.flashcards == Keepers(CardList(ParsedReply(reply.text, loads, search)))
    ensures spending.allowed && ClientKey(sessionKey, envKey).Some? && reply.Replied? ==>
      r == ProcessReply(reply.text, ParsedReply(reply.text, loads, search), pythonError)
  {
    if !spending.allowed then Rejected(spending.message, None)
    else if ClientKey(sessionKey, envKey).None? then Rejected(NoApiKeyError, None)
    else
      match reply
      case Failed(message) => Rejected(ApiErrorPrefix + message, None)
      case Replied(text) => ProcessReply(text, ParsedReply(text, loads, search), pythonError)
  }

  /** The dictionary the explanation and mnemonic generators return. */
  datatype TextResult = TextOk(text: string) | TextErr(error: string)

  /** The audience named in the explanation prompt: level 5 for ELI5, anything else for ELI10. */
  function AgeDescription(level: int): (r: string)
    ensures r == "5-year-old" <==> level == 5
    ensures level != 5 ==> r == "10-year-old"
  {
    if level == 5 then "5-year-old" else "10-year-old"
  }

  /**
   * The common shape of `generate_eli_explanation` and `generate_mnemonic`: the
   * spending gate, then the client, then the reply text with its whitespace stripped.
   */
  function GenerateText(spending: SpendingCheck, sessionKey: Option<string>, envKey: Option<string>,
                        reply: ApiReply): (r: TextResult)
    ensures !spending.allowed ==> r == TextErr(spending.message)
    ensures r.TextOk? <==> spending.allowed && ClientKey(sessionKey, envKey).Some? && reply.Replied?
    ensures r.TextOk? ==> r.text == Strip(reply.text)
    ensures spending.allowed && ClientKey(sessionKey, envKey).None? ==> r == TextErr(NoApiKeyError)
    ensures spending.allowed && ClientKey(sessionKey, envKey).Some? && reply.Failed? ==>
      r == TextErr(ApiErrorPrefix + reply.message)
  {
    if !spending.allowed then TextErr(spending.message)
    else if ClientKey(sessionKey, envKey).None? then TextErr(NoApiKeyError)
    else
      match reply
      case Failed(message) => TextErr(ApiErrorPrefix + message)
      case Replied(text) => TextOk(Strip(text))
  }

  /** `generate_eli_explanation(question, answer, level)`; the level only changes the prompt. */
  function GenerateEliExplanation(level: int, spending: SpendingCheck, sessionKey: Option<string>,
                                  envKey: Option<string>, reply: ApiReply): (r: TextResult)
    ensures r == GenerateText(spending, sessionKey, envKey, reply)
    ensures !spending.allowed ==> r == TextErr(spending.message)
  {
    GenerateText(spending, sessionKey, envKey, reply)
  }

  /** `generate_mnemonic(question, answer)`. */
  function GenerateMnemonic(spending: SpendingCheck, sessionKey: Option<string>, envKey: Option<string>,
                            reply: ApiReply): (r: TextResult)
    ensures r == GenerateText(spending, sessionKey, envKey, reply)
    ensures !spending.allowed ==> r == TextErr(spending.message)
  {
    GenerateText(spending, sessionKey, envKey, reply)
  }

  /**
   * When the spending check refuses, all three generators return its message and
   * nothing about the key or the reply matters: no client is made and no call is sent.
   */
  lemma SpendingLimitBlocksGeneration(spending: SpendingCheck, level: int,
                                      k1: Option<string>, e1: Option<string>, reply1: ApiReply,
                                      k2: Option<string>, e2: Option<string>, reply2: ApiReply,
                                      loads: string -> Option<Json>,
                                      search: (string, string) -> Option<RegexMatch>, pythonError: string)
    requires !spending.allowed
    ensures GenerateFlashcards(spending, k1, e1, reply1, loads, search, pythonError) ==
            GenerateFlashcards(spending, k2, e2, reply2, loads, search, pythonError) ==
            Rejected(spending.message, None)
    ensures GenerateEliExplanation(level, spending, k1, e1, reply1) ==
            GenerateEliExplanation(level, spending, k2, e2, reply2) == TextErr(spending.message)
    ensures GenerateMnemonic(spending, k1, e1, reply1) ==
            GenerateMnemonic(spending, k2, e2, reply2) == TextErr(spending.message)
  {
  }

  /** A reply that parses directly is never searched further. */
  lemma DirectParseWins(responseText: string, loads: string -> Option<Json>,
                        search: (string, string) -> Option<RegexMatch>)
    requires loads(Strip(responseText)).Some?
    ensures ParsedReply(responseText, loads, search) == loads(Strip(responseText))
  {
  }

  /** The parse gives up only when every stage failed, including the brace slice when there is one. */
  lemma ParseFailsOnlyWhenEveryStageFails(responseText: string, loads: string -> Option<Json>,
                                          search: (string, string) -> Option<RegexMatch>)
    requires ParsedReply(responseText, loads, search).None?
    ensures loads(Strip(responseText)).None?
    ensures forall p :: p in JsonPatterns ==> FencedStage(p, Strip(responseText), loads, search).None?
    ensures BraceCandidate(Strip(responseText)).Some? ==> loads(BraceCandidate(Strip(responseText)).value).None?
    ensures search(PatternText(BareCardList), Strip(responseText)).Some? ==>
      loads(search(PatternText(BareCardList), Strip(responseText)).value.whole).None?
  {
    StagesInOrder(Strip(responseText), loads, search);
  }
}
