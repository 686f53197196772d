/**
 * The front-end's Markdown renderer (gui.py, `insert_formatted_text`): the
 * text is cut into lines; each line may be tagged as a heading or a list
 * item, is split around `**bold**` pairs, and its pieces are inserted into a
 * text widget with their tags, followed by one newline. The widget is the
 * list of `(text, tags)` insertions made into it.
 */
module Gui {
  import opened Interfaces
  import opened PyText

  /** The widget tags "heading", "list_item" and "bold". */
  datatype Tag = Heading | ListItem | Bold

  /** One `text_widget.insert(tk.END, text, tags)`. */
  datatype Insertion = Insertion(text: string, tags: seq<Tag>)

  const Newline := Insertion("\n", [])

  /** A text widget, seen as the insertions made at its end. */
  class TextWidget {
    var insertions: seq<Insertion>

    constructor ()
      ensures insertions == []
    {
      insertions := [];
    }

    /** `insert(tk.END, text, tags)`. */
    method Insert(text: string, tags: seq<Tag>)
      modifies this
      ensures insertions == old(insertions) + [Insertion(text, tags)]
    {
      insertions := insertions + [Insertion(text, tags)];
    }
  }

  /** The line's tags and the text to insert for it. */
  function Layout(line: string): (r: (seq<Tag>, string))
    ensures r.0 == [] || r.0 == [Heading] || r.0 == [ListItem]
    ensures r.0 == [] ==> r.1 == line
    ensures r.0 != [] ==> |r.1| <= |Strip(line)| && r.1 == Strip(line)[|Strip(line)| - |r.1|..]
  {
    var stripped := Strip(line);
    var (tags, text) :=
      if StartsWith(stripped, "## ") then ([Heading], stripped[3..])
      else if StartsWith(stripped, "# ") then ([Heading], stripped[2..])
      else ([], line);
    if |stripped| > 1 && (stripped[0] == '-' || stripped[0] == '*') && stripped[1] == ' ' then
      (tags + [ListItem], stripped)
    else (tags, text)
  }

  /** A stripped line starting with "## " or "# " is a heading, inserted
    * without its marker; a stripped line starting with "- " or "* " is a list
    * item, inserted stripped with its marker; any other line is inserted as it
    * is, unstripped. No line is both. */
  lemma LayoutCases(line: string)
    ensures var (tags, text) := Layout(line);
      && (tags == [] || tags == [Heading] || tags == [ListItem])
      && (tags == [Heading] <==> StartsWith(Strip(line), "## ") || StartsWith(Strip(line), "# "))
      && (tags == [Heading] ==> Strip(line) == (if StartsWith(Strip(line), "## ") then "## " else "# ") + text)
      && (tags == [ListItem] <==> |Strip(line)| > 1 && Strip(line)[0] in "-*" && Strip(line)[1] == ' ')
      && (tags == [ListItem] ==> text == Strip(line))
      && (tags == [] ==> text == line)
  {
    hide Strip;
    var stripped := Strip(line);
    if StartsWith(stripped, "## ") {
      assert stripped[0] == stripped[..3][0] == '#';
      assert stripped == "## " + stripped[3..];
    } else if StartsWith(stripped, "# ") {
      assert stripped[0] == stripped[..2][0] == '#';
      assert stripped == "# " + stripped[2..];
    } else {
      var none: seq<Tag> := [];
      assert none + [ListItem] == [ListItem];
    }
  }

  /** "**" starts at index `k` of `t`. */
  predicate PairAt(t: string, k: int) {
    0 <= k && k + 1 < |t| && t[k] == '*' && t[k + 1] == '*'
  }

  /** The first "**" at or after `from`. */
  function NextPair(t: string, from: nat): (r: Option<nat>)
    ensures r.Some? ==> from <= r.value && PairAt(t, r.value)
    ensures forall k :: from <= k && (r.None? || k < r.value) ==> !PairAt(t, k)
    decreases |t| - from
  {
    if from + 1 >= |t| then None
    else if PairAt(t, from) then Some(from)
    else NextPair(t, from + 1)
  }

  /** `\*\*.*?\*\*` matches `t[i..e]` as the lazy group makes it: "**" at
    * `i`, and at `e - 2` the first "**" from `i + 2` on. */
  predicate BoldAt(t: string, i: int, e: int) {
    && PairAt(t, i) && i + 4 <= e && PairAt(t, e - 2)
    && (forall p :: i + 2 <= p < e - 2 ==> !PairAt(t, p))
  }

  /** The match `re.split` cuts at first, found as the first "**" and the
    * first "**" after it; `BoldMatchIsLeftmostLazy` shows it is the leftmost
    * and shortest match. (`.` does not match a newline; a line has none.) */
  function BoldMatch(t: string): (r: Option<(nat, nat)>)
    ensures r.Some? ==> r.value.0 + 4 <= r.value.1 <= |t|
  {
    match NextPair(t, 0)
    case None => None
    case Some(i) =>
      match NextPair(t, i + 2)
      case None => None
      case Some(j) => Some((i, j + 2))
  }

  /** `BoldMatch` gives the leftmost start from which the pattern matches,
    * with the lazy (shortest) span from there, and None exactly when the
    * pattern matches nowhere. */
  lemma BoldMatchIsLeftmostLazy(t: string)
    ensures BoldMatch(t).Some? ==> BoldAt(t, BoldMatch(t).value.0, BoldMatch(t).value.1)
    ensures BoldMatch(t).Some? ==> forall i, e :: BoldAt(t, i, e) ==> BoldMatch(t).value.0 <= i
    ensures BoldMatch(t).None? <==> forall i, e :: !BoldAt(t, i, e)
  {
    match NextPair(t, 0)
    case None =>
    case Some(i) =>
      match NextPair(t, i + 2)
      case None =>
        forall i', e' ensures !BoldAt(t, i', e') {
          if PairAt(t, i') && i' + 4 <= e' {
            assert i <= i';
            assert !PairAt(t, e' - 2);
          }
        }
      case Some(j) =>
        assert BoldAt(t, i, j + 2);
  }

  function Concat(pieces: seq<string>): string {
    if pieces == [] then "" else pieces[0] + Concat(pieces[1..])
  }

  lemma ConcatOne(a: string)
    ensures Concat([a]) == a
  {
    assert [a][1..] == [];
  }

  lemma ConcatTwoMore(a: string, b: string, rest: seq<string>)
    ensures Concat([a, b] + rest) == a + b + Concat(rest)
  {
    var r := [a, b] + rest;
    assert r[1..][1..] == rest;
    assert Concat(r[1..]) == b + Concat(rest);
  }

  /** `re.split(r'(\*\*.*?\*\*)', t)`: the text between matches and the
    * matches themselves, alternately; put back together they are `t`. */
  function SplitBold(t: string): (r: seq<string>)
    ensures r != []
    ensures Concat(r) == t
    decreases |t|
  {
    hide *;
    match BoldMatch(t)
    case None =>
      ConcatOne(t);
      [t]
    case Some((i, e)) =>
      var rest := SplitBold(t[e..]);
      ConcatTwoMore(t[..i], t[i..e], rest);
      assert t == t[..i] + t[i..e] + t[e..];
      [t[..i], t[i..e]] + rest
  }

  /** The split has an odd number of pieces: it starts and ends with text
    * outside any match. */
  lemma {:induction false} SplitBoldOdd(t: string)
    ensures |SplitBold(t)| % 2 == 1
    decreases |t|
  {
    SplitBoldStep(t);
    hide *;
    match BoldMatch(t)
    case None =>
    case Some((i, e)) =>
      SplitBoldOdd(t[e..]);
      var n := |SplitBold(t[e..])|;
      assert |SplitBold(t)| == n + 2;
      assert (n + 2) % 2 == n % 2;
  }

  /** One step of the split. */
  lemma SplitBoldStep(t: string)
    ensures BoldMatch(t).None? ==> SplitBold(t) == [t]
    ensures BoldMatch(t).Some? ==> var (i, e) := BoldMatch(t).value;
      e <= |t| && SplitBold(t) == [t[..i], t[i..e]] + SplitBold(t[e..])
  {
  }

  /** A piece of the split is a bold span when it starts and ends with "**"
    * and has something between them; "****" is not one. */
  predicate IsBoldSpan(segment: string) {
    StartsWith(segment, "**") && |segment| > 4 && segment[|segment| - 2..] == "**"
  }

  /** The insertions for the pieces of one line: a bold span without its
    * markers and with "bold" added, any other non-empty piece as it is. */
  function SegmentInsertions(segments: seq<string>, tags: seq<Tag>): (r: seq<Insertion>)
    ensures |r| <= |segments|
    ensures forall x :: x in r ==> x.text != ""
  {
    if segments == [] then []
    else
      var segment := segments[|segments| - 1];
      var front := SegmentInsertions(segments[..|segments| - 1], tags);
      if IsBoldSpan(segment) then front + [Insertion(segment[2..|segment| - 2], tags + [Bold])]
      else if segment != "" then front + [Insertion(segment, tags)]
      else front
  }

  /** The insertions for one line: never an empty text, and the newline last. */
  function LineInsertions(line: string): (r: seq<Insertion>)
    ensures r != [] && r[|r| - 1] == Newline
    ensures forall x :: x in r ==> x.text != ""
  {
    var (tags, text) := Layout(line);
    SegmentInsertions(SplitBold(text), tags) + [Newline]
  }

  /** What `insert_formatted_text(w, text)` inserts, line by line. */
  function Formatted(lines: seq<string>): (r: seq<Insertion>)
    ensures |r| >= |lines|
    ensures forall x :: x in r ==> x.text != ""
  {
    if lines == [] then [] else Formatted(lines[..|lines| - 1]) + LineInsertions(lines[|lines| - 1])
  }

  /** `insert_formatted_text(text_widget, text)`. */
  method InsertFormattedText(w: TextWidget, text: string)
    modifies w
    ensures w.insertions == old(w.insertions) + Formatted(Split(text, '\n'))
  {
    hide Layout, SplitBold, LineInsertions;
    var lines := Split(text, '\n');
    for n := 0 to |lines|
      invariant w.insertions == old(w.insertions) + Formatted(lines[..n])
    {
      InsertLine(w, lines[n]);
      FormattedStep(lines[..n + 1]);
      assert lines[..n + 1][..n] == lines[..n];
    }
    assert lines[..|lines|] == lines;
  }

  /** The body of the loop over lines: the line's pieces, then a newline. */
  method InsertLine(w: TextWidget, line: string)
    modifies w
    ensures w.insertions == old(w.insertions) + LineInsertions(line)
  {
    hide Layout, SplitBold, SegmentInsertions, LineInsertions, Strip;
    var (tags, toInsert) := Layout(line);
    var segments := SplitBold(toInsert);
    SegmentStart(segments, tags);
    for m := 0 to |segments|
      invariant w.insertions == old(w.insertions) + SegmentInsertions(segments[..m], tags)
    {
      var segment := segments[m];
      assert segments[..m + 1][..m] == segments[..m];
      SegmentStep(segments[..m + 1], tags);
      if IsBoldSpan(segment) {
        w.Insert(segment[2..|segment| - 2], tags + [Bold]);
      } else if segment != "" {
        w.Insert(segment, tags);
      }
    }
    assert segments[..|segments|] == segments;
    w.Insert("\n", []);
    LineInsertionsDef(line);
  }

  lemma LineInsertionsDef(line: string)
    ensures LineInsertions(line) == SegmentInsertions(SplitBold(Layout(line).1), Layout(line).0) + [Newline]
  {
  }

  lemma SegmentStart(segments: seq<string>, tags: seq<Tag>)
    ensures SegmentInsertions(segments[..0], tags) == []
  {
    assert segments[..0] == [];
  }

  /** One more piece: a bold span goes in without its markers and with the
    * bold tag, an empty piece adds nothing. */
  lemma SegmentStep(segments: seq<string>, tags: seq<Tag>)
    requires segments != []
    ensures var segment, front := segments[|segments| - 1], SegmentInsertions(segments[..|segments| - 1], tags);
      SegmentInsertions(segments, tags)
      == if IsBoldSpan(segment) then front + [Insertion(segment[2..|segment| - 2], tags + [Bold])]
         else if segment != "" then front + [Insertion(segment, tags)]
         else front
  {
  }

  lemma FormattedStep(lines: seq<string>)
    requires lines != []
    ensures Formatted(lines) == Formatted(lines[..|lines| - 1]) + LineInsertions(lines[|lines| - 1])
  {
  }

  // ---------------------------------------------------------------------
  // Properties of the split

  /** A match of the lazy pattern: "**", then text without "**", then "**". */
  predicate IsLazyMatch(piece: string) {
    && |piece| >= 4 && StartsWith(piece, "**") && piece[|piece| - 2..] == "**"
    && (forall p :: 2 <= p < |piece| - 2 ==> !PairAt(piece, p))
  }

  /** Every other piece (the captured matches) is a lazy match. */
  lemma {:induction false} SplitBoldMatches(t: string)
    ensures forall k :: 0 <= k < |SplitBold(t)| && k % 2 == 1 ==> IsLazyMatch(SplitBold(t)[k])
    decreases |t|
  {
    var r := SplitBold(t);
    match BoldMatch(t)
    case None =>
    case Some((i, e)) =>
      var rest := SplitBold(t[e..]);
      SplitBoldMatches(t[e..]);
      MatchIsLazy(t, i, e);
      forall k | 0 <= k < |r| && k % 2 == 1
        ensures IsLazyMatch(r[k])
      {
        if k > 1 {
          assert (k - 2) % 2 == 1;
          assert r[k] == rest[k - 2];
        }
      }
  }

  lemma MatchIsLazy(t: string, i: nat, e: nat)
    requires BoldMatch(t) == Some((i, e))
    ensures IsLazyMatch(t[i..e])
  {
    var piece := t[i..e];
    forall p | 2 <= p < |piece| - 2
      ensures !PairAt(piece, p)
    {
      assert !PairAt(t, i + p);
    }
  }

  /** After the last match nothing is left to match. */
  lemma {:induction false} SplitBoldRest(t: string)
    ensures var r := SplitBold(t); BoldMatch(r[|r| - 1]).None?
    decreases |t|
  {
    match BoldMatch(t)
    case None =>
    case Some((i, e)) =>
      SplitBoldRest(t[e..]);
      var r, rest := SplitBold(t), SplitBold(t[e..]);
      assert r[|r| - 1] == rest[|rest| - 1];
  }

  /** The pieces of a text without a newline hold none. */
  lemma {:induction false} SplitBoldNoNewline(t: string)
    requires '\n' !in t
    ensures forall k :: 0 <= k < |SplitBold(t)| ==> '\n' !in SplitBold(t)[k]
    decreases |t|
  {
    SplitBoldStep(t);
    match BoldMatch(t)
    case None =>
    case Some((i, e)) =>
      assert forall c :: c in t[..i] || c in t[i..e] || c in t[e..] ==> c in t;
      SplitBoldNoNewline(t[e..]);
      var r, rest := SplitBold(t), SplitBold(t[e..]);
      hide *;
      assert r == [t[..i], t[i..e]] + rest;
      forall k | 0 <= k < |r|
        ensures '\n' !in r[k]
      {
        if k >= 2 {
          assert r[k] == rest[k - 2];
        }
      }
  }


  /** A text the pattern does not match is not split. */
  lemma NoMatchNoSplit(t: string)
    requires BoldMatch(t).None?
    ensures SplitBold(t) == [t]
  {
  }

  // ---------------------------------------------------------------------
  // Properties of what is inserted

  /** Exactly one newline insertion ends each line, and nothing else inserted
    * holds a newline, so the widget receives one newline per line. */
  lemma {:induction false} FormattedNewlines(lines: seq<string>)
    requires forall k :: 0 <= k < |lines| ==> '\n' !in lines[k]
    ensures NewlineCount(Formatted(lines)) == |lines|
    ensures forall x :: x in Formatted(lines) ==> x == Newline || '\n' !in x.text
  {
    hide Layout, SplitBold;
    if lines != [] {
      var front := lines[..|lines| - 1];
      var line := lines[|lines| - 1];
      FormattedNewlines(front);
      var (tags, text) := Layout(line);
      LayoutNoNewline(line);
      SplitBoldNoNewline(text);
      var segs := SegmentInsertions(SplitBold(text), tags);
      SegmentsNoNewline(SplitBold(text), tags);
      NewlineCountAppend(segs, [Newline]);
      assert LineInsertions(line) == segs + [Newline];
      NewlineCountAppend(Formatted(front), LineInsertions(line));
    }
  }

  /** What the whole call inserts: one newline more than the text holds. */
  lemma InsertedNewlines(text: string)
    ensures NewlineCount(Formatted(Split(text, '\n'))) == Count(text, '\n') + 1
  {
    FormattedNewlines(Split(text, '\n'));
  }

  function NewlineCount(insertions: seq<Insertion>): nat {
    if insertions == [] then 0
    else NewlineCount(insertions[..|insertions| - 1]) + (if insertions[|insertions| - 1] == Newline then 1 else 0)
  }

  lemma {:induction false} NewlineCountAppend(a: seq<Insertion>, b: seq<Insertion>)
    ensures NewlineCount(a + b) == NewlineCount(a) + NewlineCount(b)
    decreases |b|
  {
    if b == [] {
      assert a + b == a;
    } else {
      var ab := a + b;
      assert ab[..|ab| - 1] == a + b[..|b| - 1];
      assert ab[|ab| - 1] == b[|b| - 1];
      NewlineCountAppend(a, b[..|b| - 1]);
      assert NewlineCount(ab) == NewlineCount(ab[..|ab| - 1]) + (if ab[|ab| - 1] == Newline then 1 else 0);
      assert NewlineCount(b) == NewlineCount(b[..|b| - 1]) + (if b[|b| - 1] == Newline then 1 else 0);
    }
  }

  lemma LayoutNoNewline(line: string)
    requires '\n' !in line
    ensures '\n' !in Layout(line).1
  {
    hide Layout, Strip;
    StripKeeps(line, '\n');
    LayoutCases(line);
    var (tags, text) := Layout(line);
    if tags == [Heading] {
      var marker := if StartsWith(Strip(line), "## ") then "## " else "# ";
      assert Strip(line) == marker + text;
      assert forall c :: c in text ==> c in Strip(line);
    }
  }

  /** The insertions for the pieces of a line without a newline hold no
    * newline and count none. */
  lemma {:induction false} SegmentsNoNewline(segments: seq<string>, tags: seq<Tag>)
    requires forall k :: 0 <= k < |segments| ==> '\n' !in segments[k]
    ensures NewlineCount(SegmentInsertions(segments, tags)) == 0
    ensures forall x :: x in SegmentInsertions(segments, tags) ==> '\n' !in x.text
  {
    if segments != [] {
      var segment := segments[|segments| - 1];
      SegmentsNoNewline(segments[..|segments| - 1], tags);
      var front := SegmentInsertions(segments[..|segments| - 1], tags);
      if IsBoldSpan(segment) {
        assert forall c :: c in segment[2..|segment| - 2] ==> c in segment;
        NewlineCountAppend(front, [Insertion(segment[2..|segment| - 2], tags + [Bold])]);
      } else if segment != "" {
        NewlineCountAppend(front, [Insertion(segment, tags)]);
      }
    }
  }

  /** A line whose text to insert the pattern does not match goes in as one
    * piece with the line's tags (nothing when it is empty), then the newline. */
  lemma PlainLine(line: string)
    requires BoldMatch(Layout(line).1).None?
    ensures var (tags, text) := Layout(line);
      LineInsertions(line) == (if text == "" then [] else [Insertion(text, tags)]) + [Newline]
  {
    hide *;
    var (tags, text) := Layout(line);
    NoMatchNoSplit(text);
    BoldSpanMatches(text);
    SegmentStep([text], tags);
    SegmentStart([text], tags);
    LineInsertionsDef(line);
  }

  /** A text that starts and ends with "**" around something holds a match. */
  lemma BoldSpanMatches(text: string)
    ensures IsBoldSpan(text) ==> BoldMatch(text).Some?
  {
    if IsBoldSpan(text) {
      assert text[..2][0] == text[0] && text[..2][1] == text[1];
      assert PairAt(text, 0) && PairAt(text, |text| - 2);
    }
  }

  /** A line of plain text (not a heading or list item, no match of the bold
    * pattern) is inserted unchanged and unstripped. */
  lemma PlainTextUnchanged(line: string)
    requires Layout(line).0 == [] && line != ""
    requires BoldMatch(line).None?
    ensures LineInsertions(line) == [Insertion(line, []), Newline]
  {
    PlainLine(line);
  }

  /** No "**" anywhere in `s`. */
  ghost predicate NoPair(s: string) {
    forall p :: !PairAt(s, p)
  }

  /** The text before each match holds no "**": every match is the leftmost
    * one in what is left of the text. */
  lemma {:induction false} SplitBoldGaps(t: string)
    ensures forall k :: 0 <= k < |SplitBold(t)| - 1 && k % 2 == 0 ==> NoPair(SplitBold(t)[k])
    decreases |t|
  {
    match BoldMatch(t)
    case None =>
    case Some((i, e)) =>
      SplitBoldGaps(t[e..]);
      var r, rest := SplitBold(t), SplitBold(t[e..]);
      assert NextPair(t, 0) == Some(i);
      forall p ensures !PairAt(t[..i], p) {
        if PairAt(t[..i], p) {
          assert PairAt(t, p);
        }
      }
      forall k | 0 <= k < |r| - 1 && k % 2 == 0
        ensures NoPair(r[k])
      {
        if k > 0 {
          assert (k - 2) % 2 == 0;
          assert r[k] == rest[k - 2];
        }
      }
  }

  /** The insertions for a list of pieces are those of its parts, in order. */
  lemma {:induction false} SegmentInsertionsAppend(a: seq<string>, b: seq<string>, tags: seq<Tag>)
    ensures SegmentInsertions(a + b, tags) == SegmentInsertions(a, tags) + SegmentInsertions(b, tags)
    decreases |b|
  {
    if b == [] {
      assert a + b == a;
    } else {
      var ab := a + b;
      assert ab[..|ab| - 1] == a + b[..|b| - 1];
      assert ab[|ab| - 1] == b[|b| - 1];
      SegmentInsertionsAppend(a, b[..|b| - 1], tags);
      SegmentStep(ab, tags);
      SegmentStep(b, tags);
    }
  }


  /** Every bold span among the pieces goes in without its markers and with
    * "bold" added to the line's tags, between what the pieces before and
    * after it give. */
  lemma BoldSpanInserted(segments: seq<string>, tags: seq<Tag>, k: nat)
    requires k < |segments| && IsBoldSpan(segments[k])
    ensures var p := segments[k];
      SegmentInsertions(segments, tags)
      == SegmentInsertions(segments[..k], tags) + [Insertion(p[2..|p| - 2], tags + [Bold])]
         + SegmentInsertions(segments[k + 1..], tags)
  {
    var p := segments[k];
    assert segments == segments[..k] + [p] + segments[k + 1..];
    SegmentInsertionsAppend(segments[..k] + [p], segments[k + 1..], tags);
    SegmentInsertionsAppend(segments[..k], [p], tags);
    assert [p][..0] == [];
  }

  /** Each bold span of a line is inserted, unmarked and bold, with the line's
    * heading or list tag kept. */
  lemma BoldInLine(line: string, k: nat)
    requires k < |SplitBold(Layout(line).1)| && IsBoldSpan(SplitBold(Layout(line).1)[k])
    ensures var p := SplitBold(Layout(line).1)[k];
      Insertion(p[2..|p| - 2], Layout(line).0 + [Bold]) in LineInsertions(line)
  {
    var (tags, text) := Layout(line);
    BoldSpanInserted(SplitBold(text), tags, k);
    LineInsertionsDef(line);
  }

  /** "**" + w + "**", for a non-empty w without "**" that does not end in
    * '*', is a single match, and w goes in with "bold" added to the tags. */
  lemma BoldText(w: string, tags: seq<Tag>)
    requires w != [] && NoPair(w) && w[|w| - 1] != '*'
    ensures SplitBold("**" + w + "**") == ["", "**" + w + "**", ""]
    ensures SegmentInsertions(SplitBold("**" + w + "**"), tags) == [Insertion(w, tags + [Bold])]
  {
    var t := "**" + w + "**";
    BoldTextMatch(w);
    WholeMatch(t, tags);
    assert IsBoldSpan(t) by {
      assert t[..2] == "**" && t[|t| - 2..] == "**";
    }
    assert t[2..|t| - 2] == w;
  }

  /** A text that is one match from end to end is split into itself between
    * two empty pieces, and goes in as a single piece. */
  lemma WholeMatch(t: string, tags: seq<Tag>)
    requires BoldMatch(t) == Some((0, |t|))
    ensures SplitBold(t) == ["", t, ""]
    ensures SegmentInsertions(SplitBold(t), tags)
      == [if IsBoldSpan(t) then Insertion(t[2..|t| - 2], tags + [Bold]) else Insertion(t, tags)]
  {
    SplitBoldStep(t);
    SplitBoldStep(t[|t|..]);
    assert t[|t|..] == [] && NextPair([], 0).None?;
    assert t[..0] == [] && t[0..|t|] == t;
    var r := SplitBold(t);
    assert r == ["", t, ""];
    assert !IsBoldSpan("") && t != "";
    hide *;
    SegmentStep(r, tags);
    SegmentStep(r[..2], tags);
    SegmentStep(r[..1], tags);
    assert r[..2][..1] == r[..1] && r[..1][..0] == [];
    SegmentStart(r[..1], tags);
  }

  /** The whole of "**" + w + "**" is the first match. */
  lemma BoldTextMatch(w: string)
    requires w != [] && NoPair(w) && w[|w| - 1] != '*'
    ensures BoldMatch("**" + w + "**") == Some((0, |w| + 4))
  {
    var t := "**" + w + "**";
    var n := |t|;
    assert PairAt(t, 0);
    forall p | 2 <= p < n - 2
      ensures !PairAt(t, p)
    {
      if p + 1 < n - 2 {
        assert t[p] == w[p - 2] && t[p + 1] == w[p - 1];
        assert !PairAt(w, p - 2);
      } else {
        assert t[p] == w[|w| - 1];
      }
    }
    assert PairAt(t, n - 2);
    assert NextPair(t, 0) == Some(0);
    assert NextPair(t, 2) == Some(n - 2);
  }


  /** "****" is a match but not a bold span: it is inserted as it is. */
  lemma FourStarsLiteral()
    ensures SplitBold("****") == ["", "****", ""]
    ensures SegmentInsertions(SplitBold("****"), []) == [Insertion("****", [])]
  {
    var t := "****";
    assert PairAt(t, 0) && PairAt(t, 2);
    assert NextPair(t, 0) == Some(0);
    assert NextPair(t, 2) == Some(2);
    WholeMatch(t, []);
    assert !IsBoldSpan(t);
  }
}
