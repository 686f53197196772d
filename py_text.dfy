/**
 * The handful of Python `str` operations the agent, its tools and the
 * front-end rely on, with Python's meaning: `isspace`, `strip`, `lower`,
 * `replace` of one character, `startswith`, the substring test `p in s`,
 * `split` on one character, `join`, and `str()` of an integer.
 */
module PyText {

  /** `c.isspace()`: the characters Python treats as whitespace. */
  predicate IsSpace(c: char) {
    || ('\t' <= c <= '\r')
    || ('\U{001C}' <= c <= '\U{001F}')
    || c == ' ' || c == '\U{0085}' || c == '\U{00A0}' || c == '\U{1680}'
    || ('\U{2000}' <= c <= '\U{200A}')
    || c == '\U{2028}' || c == '\U{2029}' || c == '\U{202F}' || c == '\U{205F}' || c == '\U{3000}'
  }

  predicate AllSpace(s: string) {
    forall k :: 0 <= k < |s| ==> IsSpace(s[k])
  }

  /** `s.lstrip()` */
  function TrimStart(s: string): (r: string)
    ensures |r| <= |s| && r == s[|s| - |r|..]
    ensures AllSpace(s[..|s| - |r|])
    ensures r == [] || !IsSpace(r[0])
  {
    if s != [] && IsSpace(s[0]) then
      var r := TrimStart(s[1..]);
      assert s[..|s| - |r|] == [s[0]] + s[1..][..|s[1..]| - |r|];
      r
    else s
  }

  /** `s.rstrip()` */
  function TrimEnd(s: string): (r: string)
    ensures |r| <= |s| && r == s[..|r|]
    ensures AllSpace(s[|r|..])
    ensures r == [] || !IsSpace(r[|r| - 1])
  {
    if s != [] && IsSpace(s[|s| - 1]) then
      var r := TrimEnd(s[..|s| - 1]);
      assert s[|r|..] == s[..|s| - 1][|r|..] + [s[|s| - 1]];
      r
    else s
  }

  /** `s.strip()`: the whitespace at both ends removed. */
  function Strip(s: string): (r: string)
    ensures |r| <= |s|
    ensures r == [] || (!IsSpace(r[0]) && !IsSpace(r[|r| - 1]))
  {
    TrimEnd(TrimStart(s))
  }

  /** What `Strip` removes is whitespace, and what it keeps is a slice of `s`;
    * with `Strip`'s own contract, that slice neither starts nor ends with
    * whitespace. */
  lemma StripIsTrimmedSlice(s: string)
    ensures var r := Strip(s);
      exists i :: 0 <= i <= |s| - |r| && r == s[i..i + |r|] && AllSpace(s[..i]) && AllSpace(s[i + |r|..])
  {
    var t := TrimStart(s);
    var r := TrimEnd(t);
    assert Strip(s) == r;
    hide *;
    var i := |s| - |t|;
    assert t == s[i..] && AllSpace(s[..i]);
    assert r == t[..|r|] && AllSpace(t[|r|..]);
    assert r == s[i..i + |r|];
    assert s[i + |r|..] == t[|r|..];
  }

  /** What `Strip` keeps is a slice, so it holds no character `s` lacks. */
  lemma StripKeeps(s: string, c: char)
    requires c !in s
    ensures c !in Strip(s)
  {
    hide TrimStart, TrimEnd, IsSpace;
    var t := TrimStart(s);
    assert t == s[|s| - |t|..];
    assert c !in t;
    var r := TrimEnd(t);
    assert r == t[..|r|];
  }

  /** Stripping twice is stripping once. */
  lemma StripIdempotent(s: string)
    ensures Strip(Strip(s)) == Strip(s)
  {
    var r := Strip(s);
    StripIsTrimmedSlice(s);
    if r != [] {
      assert TrimStart(r) == r;
      assert TrimEnd(r) == r;
    }
  }

  /** A string of whitespace only strips to the empty string. */
  lemma {:induction false} BlankStripsToEmpty(s: string)
    requires AllSpace(s)
    ensures TrimStart(s) == [] && Strip(s) == []
  {
    if s != [] {
      assert IsSpace(s[0]);
      BlankStripsToEmpty(s[1..]);
    }
  }

  /** ASCII part of `c.lower()`. */
  function LowerChar(c: char): char {
    if 'A' <= c <= 'Z' then (c as int + 32) as char else c
  }

  /** `s.lower()`, character by character. */
  function Lower(s: string): (r: string)
    ensures |r| == |s|
    ensures forall k :: 0 <= k < |s| ==> r[k] == LowerChar(s[k])
  {
    if s == [] then [] else [LowerChar(s[0])] + Lower(s[1..])
  }

  /** `s.replace(a, b)` for single characters `a` and `b`. */
  function ReplaceChar(s: string, a: char, b: char): (r: string)
    ensures |r| == |s|
    ensures forall k :: 0 <= k < |s| ==> r[k] == (if s[k] == a then b else s[k])
  {
    if s == [] then [] else [if s[0] == a then b else s[0]] + ReplaceChar(s[1..], a, b)
  }

  /** `s.startswith(p)` */
  predicate StartsWith(s: string, p: string) {
    |p| <= |s| && s[..|p|] == p
  }

  /** `s.endswith(p)` */
  predicate EndsWith(s: string, p: string) {
    |p| <= |s| && s[|s| - |p|..] == p
  }

  /** A concatenation starts with its first part and ends with its last. */
  lemma ConcatAffixes(front: string, middle: string, back: string)
    ensures StartsWith(front + middle + back, front)
    ensures EndsWith(front + middle + back, back)
  {
    assert (front + middle + back)[..|front|] == front;
  }

  /** `p in s` for two strings: `p` occurs in `s` as a contiguous piece. */
  predicate IsInfix(p: string, s: string)
    decreases |s|
  {
    StartsWith(s, p) || (s != [] && IsInfix(p, s[1..]))
  }

  /** `p` occurs in `s` starting at index `i`. */
  predicate OccursAt(p: string, s: string, i: int) {
    0 <= i <= |s| - |p| && s[i..i + |p|] == p
  }

  /** `IsInfix` is the occurrence test at some position. */
  lemma {:induction false} IsInfixAt(p: string, s: string)
    ensures IsInfix(p, s) <==> exists i :: OccursAt(p, s, i)
    decreases |s|
  {
    if s != [] {
      IsInfixAt(p, s[1..]);
      if IsInfix(p, s[1..]) {
        var i :| OccursAt(p, s[1..], i);
        assert OccursAt(p, s, i + 1);
      }
      if i :| OccursAt(p, s, i) {
        if i > 0 {
          assert OccursAt(p, s[1..], i - 1);
        } else {
          assert s[..|p|] == s[i..i + |p|];
        }
      }
      if StartsWith(s, p) {
        assert OccursAt(p, s, 0);
      }
    } else if p == [] {
      assert OccursAt(p, s, 0);
    }
  }

  /** Number of occurrences of `c` in `s` (`s.count(c)`). */
  function Count(s: string, c: char): nat {
    if s == [] then 0 else (if s[0] == c then 1 else 0) + Count(s[1..], c)
  }

  /** `sep.join(parts)` */
  function Join(sep: string, parts: seq<string>): string {
    if parts == [] then ""
    else if |parts| == 1 then parts[0]
    else parts[0] + sep + Join(sep, parts[1..])
  }

  /** `s.split(sep)` for a one-character separator: the pieces between the
    * separators, one more piece than there are separators, and joining them
    * back with the separator gives `s`. */
  function Split(s: string, sep: char): (r: seq<string>)
    ensures |r| == Count(s, sep) + 1
    ensures forall k :: 0 <= k < |r| ==> sep !in r[k]
    ensures Join([sep], r) == s
  {
    if s == [] then [""]
    else
      var rest := Split(s[1..], sep);
      if s[0] == sep then [""] + rest
      else [[s[0]] + rest[0]] + rest[1..]
  }

  /** Without the separator, `s` is a single piece. */
  lemma {:induction false} SplitWithoutSeparator(s: string, sep: char)
    requires sep !in s
    ensures Split(s, sep) == [s]
  {
    if s != [] {
      SplitWithoutSeparator(s[1..], sep);
    }
  }

  /** A piece without the separator, then the separator, then the rest: the
    * piece comes first and the rest is split on its own. */
  lemma {:induction false} SplitAfterPiece(piece: string, sep: char, rest: string)
    requires sep !in piece
    ensures Split(piece + [sep] + rest, sep) == [piece] + Split(rest, sep)
  {
    var s := piece + [sep] + rest;
    if piece == [] {
      assert s[1..] == rest;
    } else {
      assert s[1..] == piece[1..] + [sep] + rest;
      SplitAfterPiece(piece[1..], sep, rest);
      assert [piece[0]] + piece[1..] == piece;
    }
  }

  /** Each part of a join occurs in the joined string. */
  lemma {:induction false} JoinContainsPart(sep: string, parts: seq<string>, k: nat)
    requires k < |parts|
    ensures IsInfix(parts[k], Join(sep, parts))
  {
    if k == 0 {
      InfixOfPrefix(parts[0], Join(sep, parts));
    } else {
      JoinContainsPart(sep, parts[1..], k - 1);
      InfixOfSuffix(parts[k], parts[0] + sep, Join(sep, parts[1..]));
    }
  }

  lemma InfixOfPrefix(p: string, s: string)
    requires StartsWith(s, p)
    ensures IsInfix(p, s)
  {
  }

  lemma {:induction false} InfixOfSuffix(p: string, front: string, back: string)
    requires IsInfix(p, back)
    ensures IsInfix(p, front + back)
    decreases |front|
  {
    if front != [] {
      assert (front + back)[1..] == front[1..] + back;
      InfixOfSuffix(p, front[1..], back);
    } else {
      assert front + back == back;
    }
  }

  /** An occurrence in `s` is an occurrence in anything that has `s` as a
    * prefix. */
  lemma InfixOfExtension(p: string, s: string, back: string)
    requires IsInfix(p, s)
    ensures IsInfix(p, s + back)
  {
    IsInfixAt(p, s);
    var i :| OccursAt(p, s, i);
    assert (s + back)[i..i + |p|] == s[i..i + |p|];
    assert OccursAt(p, s + back, i);
    IsInfixAt(p, s + back);
  }

  /** An occurrence in `mid` is an occurrence in `front + mid + back`. */
  lemma InfixOfSurrounding(p: string, front: string, mid: string, back: string)
    requires IsInfix(p, mid)
    ensures IsInfix(p, front + mid + back)
  {
    InfixOfExtension(p, mid, back);
    InfixOfSuffix(p, front, mid + back);
    assert front + mid + back == front + (mid + back);
  }

  /** The middle of a concatenation occurs in it. */
  lemma InfixOfMiddle(front: string, mid: string, back: string)
    ensures IsInfix(mid, front + mid + back)
  {
    InfixOfPrefix(mid, mid);
    InfixOfSurrounding(mid, front, mid, back);
  }

  /** An occurrence inside an occurrence is an occurrence. */
  lemma InfixTransitive(p: string, q: string, s: string)
    requires IsInfix(p, q) && IsInfix(q, s)
    ensures IsInfix(p, s)
  {
    IsInfixAt(p, q);
    IsInfixAt(q, s);
    var i :| OccursAt(p, q, i);
    var j :| OccursAt(q, s, j);
    forall k | 0 <= k < |p| ensures s[j + i + k] == p[k] {
      assert s[j..j + |q|][i + k] == q[i + k] == q[i..i + |p|][k];
    }
    assert OccursAt(p, s, j + i);
    IsInfixAt(p, s);
  }

  /** The decimal digits of a natural number. */
  function NatToString(n: nat): (r: string)
    ensures r != []
    ensures forall k :: 0 <= k < |r| ==> '0' <= r[k] <= '9'
    decreases n
  {
    var d := ['0' + (n % 10) as char];
    if n < 10 then d else NatToString(n / 10) + d
  }

  /** `str(n)` for an integer. */
  function IntToString(n: int): string {
    if n < 0 then "-" + NatToString(-n) else NatToString(n)
  }
}
