/**
 * `extract_json_block` (agent.py): recover the structured action from the
 * raw text of a model reply. The whole text is decoded first; only when that
 * fails is the first fenced block searched for, with the pattern
 *
 *     ```json\\n(.*?)\\n```      (raw string; DOTALL, IGNORECASE)
 *
 * Because the pattern is a raw string, `\\n` is an escaped backslash followed
 * by the letter n: the fence must contain a literal backslash and an `n`
 * (either case), not a line break. `json.loads` is not modelled as a grammar:
 * it is the parameter `parse`, a partial function from text to a value.
 */
module ActionParser {
  import opened Interfaces
  import opened PyText
  import opened PyJson

  /** Width of the opening delimiter: three backticks, `json`, backslash, `n`. */
  const OpenerWidth := 9
  /** Width of the closing delimiter: backslash, `n`, three backticks. */
  const CloserWidth := 5

  /** Python's case-insensitive comparison of a text character with a lower-case
    * ASCII letter of the pattern; for `s` it also accepts U+017F (long s). */
  predicate SameIgnoringCase(c: char, letter: char)
    requires 'a' <= letter <= 'z'
  {
    c == letter || c as int == letter as int - 32 || (letter == 's' && c == '\U{017F}')
  }

  /** The opening delimiter starts at index `i` of `text`. */
  predicate OpenerAt(text: string, i: int) {
    && 0 <= i && i + OpenerWidth <= |text|
    && text[i] == '`' && text[i + 1] == '`' && text[i + 2] == '`'
    && SameIgnoringCase(text[i + 3], 'j') && SameIgnoringCase(text[i + 4], 's')
    && SameIgnoringCase(text[i + 5], 'o') && SameIgnoringCase(text[i + 6], 'n')
    && text[i + 7] == '\\' && SameIgnoringCase(text[i + 8], 'n')
  }

  /** The closing delimiter starts at index `j` of `text`. */
  predicate CloserAt(text: string, j: int) {
    && 0 <= j && j + CloserWidth <= |text|
    && text[j] == '\\' && SameIgnoringCase(text[j + 1], 'n')
    && text[j + 2] == '`' && text[j + 3] == '`' && text[j + 4] == '`'
  }

  /** The pattern matches from index `i`, with the group spanning `i + 9 .. j`. */
  ghost predicate MatchSpan(text: string, i: int, j: int) {
    OpenerAt(text, i) && i + OpenerWidth <= j && CloserAt(text, j)
  }

  /** The match `re.search` reports: the leftmost start, and from there the
    * shortest group (the group is lazy). */
  ghost predicate LeftmostLazy(text: string, i: int, j: int) {
    && MatchSpan(text, i, j)
    && (forall i', j' :: MatchSpan(text, i', j') ==> i <= i')
    && (forall j' :: MatchSpan(text, i, j') ==> j <= j')
  }

  /** The first index at or after `from` where the opening delimiter starts. */
  function FirstOpener(text: string, from: nat): (r: Option<nat>)
    ensures r.Some? ==> from <= r.value && OpenerAt(text, r.value)
    ensures r.Some? ==> forall k :: from <= k < r.value ==> !OpenerAt(text, k)
    ensures r.None? ==> forall k :: from <= k ==> !OpenerAt(text, k)
    decreases |text| - from
  {
    if from + OpenerWidth > |text| then None
    else if OpenerAt(text, from) then Some(from)
    else FirstOpener(text, from + 1)
  }

  /** The first index at or after `from` where the closing delimiter starts. */
  function FirstCloser(text: string, from: nat): (r: Option<nat>)
    ensures r.Some? ==> from <= r.value && CloserAt(text, r.value)
    ensures r.Some? ==> forall k :: from <= k < r.value ==> !CloserAt(text, k)
    ensures r.None? ==> forall k :: from <= k ==> !CloserAt(text, k)
    decreases |text| - from
  {
    if from + CloserWidth > |text| then None
    else if CloserAt(text, from) then Some(from)
    else FirstCloser(text, from + 1)
  }

  /** `match.group(1)` of the search, or None when there is no match. Only
    * the first opening delimiter needs trying: a closing delimiter after a
    * later opener also follows the first one. */
  function FencedBlock(text: string): (r: Option<string>)
    ensures r.Some? ==> exists i, j :: MatchSpan(text, i, j) && r.value == text[i + OpenerWidth..j]
  {
    match FirstOpener(text, 0)
    case None => None
    case Some(i) =>
      match FirstCloser(text, i + OpenerWidth)
      case None => None
      case Some(j) =>
        assert MatchSpan(text, i, j);
        Some(text[i + OpenerWidth..j])
  }

  /** What `FencedBlock` returns is the group of the leftmost, laziest match. */
  lemma FencedBlockIsLeftmostLazy(text: string)
    ensures FencedBlock(text).Some? ==>
      exists i, j :: LeftmostLazy(text, i, j) && FencedBlock(text).value == text[i + OpenerWidth..j]
  {
    if FencedBlock(text).Some? {
      var i := FirstOpener(text, 0).value;
      var j := FirstCloser(text, i + OpenerWidth).value;
      assert MatchSpan(text, i, j);
      forall i', j' | MatchSpan(text, i', j') ensures i <= i' {
      }
      assert LeftmostLazy(text, i, j);
    }
  }

  /** `FencedBlock` finds nothing exactly when the pattern matches nowhere. */
  lemma FencedBlockNoneIffNoMatch(text: string)
    ensures FencedBlock(text).None? <==> forall i, j :: !MatchSpan(text, i, j)
  {
    match FirstOpener(text, 0)
    case None =>
    case Some(i) =>
      if FirstCloser(text, i + OpenerWidth).None? {
        forall i', j' ensures !MatchSpan(text, i', j') {
          if OpenerAt(text, i') && i' + OpenerWidth <= j' {
            assert i <= i';
            assert !CloserAt(text, j');
          }
        }
      } else {
        assert MatchSpan(text, i, FirstCloser(text, i + OpenerWidth).value);
      }
  }

  /** `extract_json_block(text)`. A reply that decodes as a whole is returned
    * as decoded, whatever its shape, and the fence is not looked at; any
    * other result comes from a fenced block. */
  function ExtractJsonBlock(parse: string -> Option<Json>, text: string): (r: Option<Json>)
    ensures parse(text).Some? ==> r == parse(text)
    ensures parse(text).None? && r.Some? ==> FencedBlock(text).Some?
  {
    match parse(text)
    case Some(data) => Some(data)
    case None =>
      match FencedBlock(text)
      case None => None
      case Some(block) => parse(Strip(block))
  }

  /** The text `FenceAround(block)` puts between a prefix and a suffix. */
  function FenceAround(block: string): string {
    "```json\\n" + block + "\\n```"
  }

  /** Wrapping a block in the fence and finding it again gives the block back,
    * provided no fence starts inside the text before it and no closing
    * delimiter inside the block itself. A fence that begins in the prefix and
    * runs into the delimiter is impossible, and so is a closing delimiter that
    * begins in the block and runs into the closing one. */
  lemma {:induction false} FencedBlockRoundTrip(before: string, block: string, after: string)
    requires forall k :: !OpenerAt(before, k)
    requires forall k :: !CloserAt(block, k)
    ensures FencedBlock(before + FenceAround(block) + after) == Some(block)
  {
    var text := before + FenceAround(block) + after;
    var head := before + "```json\\n";
    var rest := "\\n```" + after;
    assert text == before + (FenceAround(block) + after);
    assert text == head + block + rest;
    FirstOpenerAfter(before, FenceAround(block) + after);
    FirstCloserAfter(head, block, rest);
    assert text[|head|..|head| + |block|] == block;
  }

  /** A fence that starts right after a text holding none is the first. */
  lemma FirstOpenerAfter(before: string, rest: string)
    requires forall k :: !OpenerAt(before, k)
    requires OpenerAt(rest, 0)
    ensures FirstOpener(before + rest, 0) == Some(|before|)
  {
    var text := before + rest;
    var i := |before|;
    assert text[i] == '`' && text[i + 1] == '`' && text[i + 2] == '`';
    NoOpenerStraddles(text, i);
    forall k | 0 <= k && k + OpenerWidth <= i ensures !OpenerAt(text, k) {
      assert text[k..k + OpenerWidth] == before[k..k + OpenerWidth];
      assert !OpenerAt(before, k);
    }
    assert OpenerAt(text, i);
  }

  /** A closing delimiter right after a block holding none is the first one
    * from the start of the block. */
  lemma FirstCloserAfter(head: string, block: string, rest: string)
    requires forall k :: !CloserAt(block, k)
    requires CloserAt(rest, 0)
    ensures FirstCloser(head + block + rest, |head|) == Some(|head| + |block|)
  {
    var text := head + block + rest;
    var j := |head| + |block|;
    assert text[j] == '\\';
    NoCloserStraddles(text, j);
    forall k | |head| <= k && k + CloserWidth <= j ensures !CloserAt(text, k) {
      var m := k - |head|;
      assert text[k..k + CloserWidth] == block[m..m + CloserWidth];
      assert !CloserAt(block, m);
    }
    assert CloserAt(text, j);
  }

  /** No opening delimiter starts fewer than nine places before three
    * backticks: one of them would fall where the delimiter has a letter. */
  lemma NoOpenerStraddles(text: string, i: int)
    requires 0 <= i && i + 3 <= |text|
    requires text[i] == '`' && text[i + 1] == '`' && text[i + 2] == '`'
    ensures forall k :: i - OpenerWidth < k < i ==> !OpenerAt(text, k)
  {
    forall k | i - OpenerWidth < k < i ensures !OpenerAt(text, k) {
      var d := i - k;
      if d == 1 {
        assert text[k + 3] == text[i + 2];
      } else if d == 2 {
        assert text[k + 3] == text[i + 1];
      } else if d == 3 {
        assert text[k + 3] == text[i];
      } else if d == 4 {
        assert text[k + 4] == text[i];
      } else if d == 5 {
        assert text[k + 5] == text[i];
      } else if d == 6 {
        assert text[k + 6] == text[i];
      } else if d == 7 {
        assert text[k + 7] == text[i];
      } else {
        assert text[k + 8] == text[i];
      }
    }
  }

  /** No closing delimiter starts fewer than five places before a backslash:
    * only its first character is one. */
  lemma NoCloserStraddles(text: string, j: int)
    requires 0 <= j < |text| && text[j] == '\\'
    ensures forall k :: j - CloserWidth < k < j ==> !CloserAt(text, k)
  {
    forall k | j - CloserWidth < k < j ensures !CloserAt(text, k) {
      var d := j - k;
      if d == 1 {
        assert text[k + 1] == text[j];
      } else if d == 2 {
        assert text[k + 2] == text[j];
      } else if d == 3 {
        assert text[k + 3] == text[j];
      } else {
        assert text[k + 4] == text[j];
      }
    }
  }

  /** The fallback: a reply that does not decode as a whole yields the
    * decoding of the stripped group of the match `re.search` reports. */
  lemma ExtractFromFence(parse: string -> Option<Json>, text: string, i: int, j: int)
    requires parse(text).None? && LeftmostLazy(text, i, j)
    ensures ExtractJsonBlock(parse, text) == parse(Strip(text[i + OpenerWidth..j]))
  {
    FencedBlockNoneIffNoMatch(text);
    FencedBlockIsLeftmostLazy(text);
    var i', j' :| LeftmostLazy(text, i', j') && FencedBlock(text).value == text[i' + OpenerWidth..j'];
    assert i == i';
    assert j == j';
  }

  /** Without a backslash in the reply there is no fence to find: a block
    * fenced with real line breaks, as a model usually writes it, is never
    * recovered, and the result is the decoding of the whole text. */
  lemma NoBackslashNoFallback(parse: string -> Option<Json>, text: string)
    requires '\\' !in text
    ensures FencedBlock(text) == None
    ensures ExtractJsonBlock(parse, text) == parse(text)
  {
    FencedBlockNoneIffNoMatch(text);
    forall i | 0 <= i && i + OpenerWidth <= |text| ensures !OpenerAt(text, i) {
      assert text[i + 7] in text;
    }
  }
}
