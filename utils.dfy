/**
 * The pure text helpers of the app: the two complexity lookup tables,
 * ellipsis truncation and the topic validation run before generation.
 */
module Utils {
  import opened PyStr

  // The emoji of the complexity table: seedling, herb, deciduous tree and, as the
  // default, books.
  const Seedling: string := "\U{1F331}"
  const Herb: string := "\U{1F33F}"
  const DeciduousTree: string := "\U{1F333}"
  const Books: string := "\U{1F4DA}"

  /** The three complexity levels the generator offers. */
  const Levels: set<string> := {"Beginner", "Intermediate", "Advanced"}

  const ComplexityEmojis: map<string, string> :=
    map["Beginner" := Seedling, "Intermediate" := Herb, "Advanced" := DeciduousTree]

  const ComplexityColors: map<string, string> :=
    map["Beginner" := "green", "Intermediate" := "orange", "Advanced" := "red"]

  /** `emojis.get(complexity, default)`: one emoji per level, books for anything else. */
  function ComplexityEmoji(complexity: string): (r: string)
    ensures complexity == "Beginner" ==> r == Seedling
    ensures complexity == "Intermediate" ==> r == Herb
    ensures complexity == "Advanced" ==> r == DeciduousTree
    ensures complexity !in Levels ==> r == Books
  {
    if complexity in ComplexityEmojis then ComplexityEmojis[complexity] else Books
  }

  /** `colors.get(complexity, "blue")`: one colour per level, blue for anything else. */
  function ComplexityColor(complexity: string): (r: string)
    ensures complexity == "Beginner" ==> r == "green"
    ensures complexity == "Intermediate" ==> r == "orange"
    ensures complexity == "Advanced" ==> r == "red"
    ensures complexity !in Levels ==> r == "blue"
  {
    if complexity in ComplexityColors then ComplexityColors[complexity] else "blue"
  }

  /** Both tables fall back to their default on exactly the same inputs, and tell the levels apart. */
  lemma ComplexityTablesAgree(a: string, b: string)
    ensures ComplexityEmoji(a) == Books <==> a !in Levels
    ensures ComplexityColor(a) == "blue" <==> a !in Levels
    ensures a in Levels && b in Levels ==>
      (ComplexityEmoji(a) == ComplexityEmoji(b) <==> a == b) &&
      (ComplexityColor(a) == ComplexityColor(b) <==> a == b)
  {
  }

  const Ellipsis: string := "..."

  /**
   * `truncate_text(text, max_length)`: the text itself when it fits, otherwise
   * `text[:max_length - 3] + "..."`. The result fits exactly for `max_length >= 3`;
   * below that Python's negative slice keeps all but the last `3 - max_length`
   * characters and the result is longer than `max_length`.
   */
  function TruncateText(text: string, maxLength: int := 50): (r: string)
    ensures |text| <= maxLength ==> r == text
    ensures |text| > maxLength ==>
      |r| >= 3 && |r| - 3 <= |text| && r[|r| - 3..] == Ellipsis && r[..|r| - 3] == text[..|r| - 3]
    ensures |text| > maxLength && maxLength >= 3 ==> |r| == maxLength
    ensures |text| > maxLength && maxLength < 3 ==>
      |r| == (if |text| + maxLength > 3 then |text| + maxLength else 3) && |r| > maxLength
  {
    if |text| <= maxLength then text
    else
      var kept := SliceTo(text, maxLength - 3);
      assert (kept + Ellipsis)[..|kept|] == kept;
      kept + Ellipsis
  }

  const EmptyTopicError: string := "Topic cannot be empty"
  const ShortTopicError: string := "Topic must be at least 3 characters"
  const LongTopicError: string := "Topic must be less than 500 characters"
  const MinTopicLength: nat := 3
  const MaxTopicLength: nat := 500

  /**
   * `validate_topic`: the checks run in order (empty, then stripped length, then
   * raw length) and the first one that fails gives the message. Only the
   * minimum is measured on the stripped text; the maximum is inclusive.
   */
  function ValidateTopic(topic: string): (r: (bool, string))
    ensures r.0 <==> topic != "" && |Strip(topic)| >= MinTopicLength && |topic| <= MaxTopicLength
    ensures r.0 <==> r.1 == ""
    ensures r.1 == EmptyTopicError <==> topic == ""
    ensures r.1 == ShortTopicError <==> topic != "" && |Strip(topic)| < MinTopicLength
    ensures r.1 == LongTopicError <==>
      topic != "" && |Strip(topic)| >= MinTopicLength && |topic| > MaxTopicLength
  {
    if topic == "" then (false, EmptyTopicError)
    else if |Strip(topic)| < MinTopicLength then (false, ShortTopicError)
    else if |topic| > MaxTopicLength then (false, LongTopicError)
    else (true, "")
  }

  /** A non-empty topic made only of whitespace fails the length minimum, however long it is. */
  lemma BlankTopicIsTooShort(topic: string)
    requires topic != ""
    requires forall i :: 0 <= i < |topic| ==> IsSpace(topic[i])
    ensures ValidateTopic(topic) == (false, ShortTopicError)
  {
  }

  /** Padding with whitespace counts against the maximum but not towards the minimum. */
  lemma {:induction false} PaddingCountsOnlyAgainstMaximum(core: string, pad: string)
    requires forall i :: 0 <= i < |pad| ==> IsSpace(pad[i])
    requires core != [] && !IsSpace(core[0]) && !IsSpace(core[|core| - 1])
    ensures Strip(pad + core + pad) == core
    ensures ValidateTopic(pad + core + pad).0 <==>
      |core| >= MinTopicLength && |core| + 2 * |pad| <= MaxTopicLength
  {
    StripPadded(core, pad);
  }

  lemma {:induction false} StripPadded(core: string, pad: string)
    requires forall i :: 0 <= i < |pad| ==> IsSpace(pad[i])
    requires core != [] && !IsSpace(core[0]) && !IsSpace(core[|core| - 1])
    ensures Strip(pad + core + pad) == core
  {
    assert pad + core + pad == pad + (core + pad);
    LStripSpaces(pad, core + pad);
    RStripSpaces(core, pad);
  }

  /** Leading whitespace in front of a non-space is exactly what `lstrip` removes. */
  lemma {:induction false} LStripSpaces(pad: string, rest: string)
    requires forall i :: 0 <= i < |pad| ==> IsSpace(pad[i])
    requires rest != [] && !IsSpace(rest[0])
    ensures LStrip(pad + rest) == rest
  {
    if pad != [] {
      assert (pad + rest)[1..] == pad[1..] + rest;
      LStripSpaces(pad[1..], rest);
    } else {
      assert pad + rest == rest;
    }
  }

  /** Trailing whitespace after a non-space is exactly what `rstrip` removes. */
  lemma {:induction false} RStripSpaces(rest: string, pad: string)
    requires forall i :: 0 <= i < |pad| ==> IsSpace(pad[i])
    requires rest != [] && !IsSpace(rest[|rest| - 1])
    ensures RStrip(rest + pad) == rest
  {
    if pad != [] {
      assert (rest + pad)[..|rest + pad| - 1] == rest + pad[..|pad| - 1];
      RStripSpaces(rest, pad[..|pad| - 1]);
    } else {
      assert rest + pad == rest;
    }
  }
}
