/**
 * The text side of the dialogue renderer (src/screens/MagicWordsScreen.ts):
 * splitting a message on `{name}` placeholders the way
 * `text.split(/(\{[^}]+\})/)` does, telling placeholder parts from text
 * parts, and extracting a trimmed emoji name.
 */
module DialogueText {
  import opened Common

  /** The index of the first `}` at or after `i`, or `|s|` when there is none. */
  function CloseFrom(s: string, i: nat): (j: nat)
    requires i <= |s|
    ensures i <= j <= |s|
    ensures j < |s| ==> s[j] == '}'
    ensures forall k :: i <= k < j ==> s[k] != '}'
    decreases |s| - i
  {
    if i == |s| || s[i] == '}' then i else CloseFrom(s, i + 1)
  }

  /** A placeholder as the regular expression `\{[^}]+\}` matches it: `{`, one or more characters other than `}`, then `}`. */
  predicate IsToken(t: string) {
    |t| >= 3 && t[0] == '{' && t[|t| - 1] == '}' &&
    forall k :: 1 <= k < |t| - 1 ==> t[k] != '}'
  }

  /** Where the regular expression's match starting at `p` ends (exclusively), if it matches there. */
  function MatchAt(s: string, p: nat): (r: Option<nat>)
    requires p <= |s|
    ensures r.Some? ==> p + 3 <= r.value <= |s| && IsToken(s[p..r.value])
  {
    if p < |s| && s[p] == '{' then
      var j := CloseFrom(s, p + 1);
      if p + 1 < j < |s| then Some(j + 1) else None
    else None
  }

  /** The match at `p` is the only placeholder starting at `p`: a token `s[p..e]` is exactly what the expression matches. */
  lemma MatchAtIsToken(s: string, p: nat, e: nat)
    requires p < e <= |s|
    ensures MatchAt(s, p) == Some(e) <==> IsToken(s[p..e])
  {
    if IsToken(s[p..e]) {
      var t := s[p..e];
      assert s[e - 1] == t[|t| - 1];
      forall k | p + 1 <= k < e - 1
        ensures s[k] != '}'
      {
        assert s[k] == t[k - p];
      }
    }
  }

  /**
   * `s.split(/(\{[^}]+\})/)`: the text between matches, with each match
   * (the captured group) kept in between. The scan looks for the leftmost
   * match and resumes after it; what is left at the end is the last part.
   */
  function Split(s: string): (parts: seq<string>)
    ensures |parts| % 2 == 1
    decreases |s|
  {
    if s == [] then [""]
    else
      match MatchAt(s, 0)
      case Some(e) => ["", s[..e]] + Split(s[e..])
      case None =>
        var rest := Split(s[1..]);
        [[s[0]] + rest[0]] + rest[1..]
  }

  /** The parts glued back together. */
  function Concat(parts: seq<string>): string
    decreases |parts|
  {
    if parts == [] then "" else parts[0] + Concat(parts[1..])
  }

  /** Text with no placeholder anywhere in it. */
  predicate Plain(t: string) {
    forall i, j :: 0 <= i < j <= |t| ==> !IsToken(t[i..j])
  }

  /** Concatenation of a part list is its head followed by the rest. */
  lemma ConcatCons(parts: seq<string>)
    requires parts != []
    ensures Concat(parts) == parts[0] + Concat(parts[1..])
  {
  }

  /** Splitting loses nothing: the parts concatenate back to the message. */
  lemma {:induction false} SplitConcat(s: string)
    ensures Concat(Split(s)) == s
    decreases |s|
  {
    if s != [] {
      var parts := Split(s);
      match MatchAt(s, 0)
      case Some(e) =>
        var rest := Split(s[e..]);
        SplitConcat(s[e..]);
        assert parts == ["", s[..e]] + rest;
        assert parts[1..][1..] == rest;
        ConcatCons(parts);
        ConcatCons(parts[1..]);
        assert s == s[..e] + s[e..];
      case None =>
        var rest := Split(s[1..]);
        SplitConcat(s[1..]);
        assert parts == [[s[0]] + rest[0]] + rest[1..];
        assert parts[1..] == rest[1..];
        ConcatCons(rest);
        ConcatCons(parts);
        assert s == [s[0]] + s[1..];
    }
  }

  /**
   * The separator parts (odd positions) are exactly placeholders, and the
   * text parts (even positions) contain no placeholder at all.
   */
  lemma {:induction false} SplitParts(s: string)
    ensures forall i :: 0 <= i < |Split(s)| && i % 2 == 1 ==> IsToken(Split(s)[i])
    ensures forall i :: 0 <= i < |Split(s)| && i % 2 == 0 ==> Plain(Split(s)[i])
    decreases |s|
  {
    var parts := Split(s);
    if s == [] {
      assert parts == [""];
      assert Plain("");
    } else {
      match MatchAt(s, 0)
      case Some(e) =>
        SplitParts(s[e..]);
        var rest := Split(s[e..]);
        assert parts == ["", s[..e]] + rest;
        forall i | 0 <= i < |parts|
          ensures i % 2 == 1 ==> IsToken(parts[i])
          ensures i % 2 == 0 ==> Plain(parts[i])
        {
          if i == 0 {
            assert parts[0] == "";
          } else if i == 1 {
            assert parts[1] == s[0..e];
          } else {
            var j := i - 2;
            assert parts[i] == rest[j];
            assert 0 <= j < |rest|;
            assert i % 2 == j % 2;
          }
        }
      case None =>
        var rest := Split(s[1..]);
        SplitParts(s[1..]);
        SplitConcat(s[1..]);
        ConcatCons(rest);
        assert s[1..] == rest[0] + Concat(rest[1..]);
        PlainCons(s, rest[0]);
        assert parts == [[s[0]] + rest[0]] + rest[1..];
        forall i | 1 <= i < |parts|
          ensures parts[i] == rest[i]
        {
        }
    }
  }

  /** A character at which no placeholder starts, put before plain text taken from what follows it, leaves the text plain. */
  lemma PlainCons(s: string, t: string)
    requires s != [] && MatchAt(s, 0) == None
    requires |t| < |s| && t == s[1..|t| + 1] && Plain(t)
    ensures Plain([s[0]] + t)
  {
    var first := [s[0]] + t;
    assert first == s[..|first|];
    forall i, j | 0 <= i < j <= |first|
      ensures !IsToken(first[i..j])
    {
      if i == 0 {
        assert first[i..j] == s[0..j];
        if IsToken(s[0..j]) {
          MatchAtIsToken(s, 0, j);
          assert false;
        }
      } else {
        assert first[i..j] == t[i - 1..j - 1];
      }
    }
  }

  /** Concatenation distributes over appending part lists. */
  lemma {:induction false} ConcatAppend(a: seq<string>, b: seq<string>)
    ensures Concat(a + b) == Concat(a) + Concat(b)
    decreases |a|
  {
    if a == [] {
      assert a + b == b;
    } else {
      assert (a + b)[1..] == a[1..] + b;
      ConcatAppend(a[1..], b);
      ConcatCons(a + b);
      ConcatCons(a);
    }
  }

  /** Where part `i` starts in the message: the length of the parts before it. */
  function PartStart(parts: seq<string>, i: nat): nat
    requires i <= |parts|
  {
    |Concat(parts[..i])|
  }

  /** Part `i` ends where part `i + 1` starts, and no part ends past the end of the concatenation. */
  lemma PartEnd(parts: seq<string>, i: nat)
    requires i < |parts|
    ensures PartStart(parts, i) + |parts[i]| == PartStart(parts, i + 1) <= |Concat(parts)|
  {
    assert parts[..i + 1] == parts[..i] + [parts[i]];
    ConcatAppend(parts[..i], [parts[i]]);
    ConcatCons([parts[i]]);
    assert [parts[i]][1..] == [];
    assert parts == parts[..i + 1] + parts[i + 1..];
    ConcatAppend(parts[..i + 1], parts[i + 1..]);
  }

  /** Part starts after a prefix of parts are shifted by that prefix's length. */
  lemma PartStartAfter(a: seq<string>, b: seq<string>, j: nat)
    requires j <= |b|
    ensures PartStart(a + b, |a| + j) == |Concat(a)| + PartStart(b, j)
  {
    assert (a + b)[..|a| + j] == a + b[..j];
    ConcatAppend(a, b[..j]);
  }

  /** Part starts after a first part that grew by one character at its front are shifted by one. */
  lemma PartStartCons(c: char, rest: seq<string>, i: nat)
    requires 1 <= i <= |rest|
    ensures PartStart([[c] + rest[0]] + rest[1..], i) == 1 + PartStart(rest, i)
  {
    var parts := [[c] + rest[0]] + rest[1..];
    assert parts[..i] == [[c] + rest[0]] + rest[1..i];
    assert rest[..i] == [rest[0]] + rest[1..i];
    ConcatAppend([[c] + rest[0]], rest[1..i]);
    ConcatAppend([rest[0]], rest[1..i]);
    ConcatCons([[c] + rest[0]]);
    ConcatCons([rest[0]]);
    assert [[c] + rest[0]][1..] == [];
    assert [rest[0]][1..] == [];
  }

  /** The scan for `}` reads only what lies ahead: it finds the same brace in a suffix. */
  lemma {:induction false} CloseFromShift(s: string, d: nat, i: nat)
    requires d + i <= |s|
    ensures CloseFrom(s, d + i) == d + CloseFrom(s[d..], i)
    decreases |s| - d - i
  {
    if d + i < |s| && s[d + i] != '}' {
      assert s[d..][i] == s[d + i];
      CloseFromShift(s, d, i + 1);
    }
  }

  /** A match depends only on what follows its start: matching in a suffix finds the same match, shifted. */
  lemma MatchAtShift(s: string, d: nat, q: nat)
    requires d + q <= |s|
    ensures MatchAt(s[d..], q).None? <==> MatchAt(s, d + q).None?
    ensures MatchAt(s[d..], q).Some? ==> MatchAt(s, d + q) == Some(d + MatchAt(s[d..], q).value)
  {
    if d + q < |s| {
      assert s[d..][q] == s[d + q];
      if s[d + q] == '{' {
        CloseFromShift(s, d, q + 1);
      }
    }
  }

  /** Part `i` of a split is a text part for even `i` and a separator for odd `i`, and this is where its start and end stand. */
  predicate LeftmostPart(s: string, parts: seq<string>, i: nat)
    requires i < |parts| && PartStart(parts, i) + |parts[i]| <= |s|
  {
    (i % 2 == 0 ==> forall q :: PartStart(parts, i) <= q < PartStart(parts, i) + |parts[i]| ==> MatchAt(s, q) == None) &&
    (i % 2 == 1 ==> MatchAt(s, PartStart(parts, i)) == Some(PartStart(parts, i) + |parts[i]|))
  }

  /** Two parts apart, parts have the same kind. */
  lemma ParityStep(i: nat)
    requires i >= 2
    ensures i % 2 == (i - 2) % 2
  {
  }

  /** What a part of a split says about matches, carried over from a suffix of the message to the whole message. */
  lemma ShiftPart(s: string, d: nat, o: nat, t: nat, len: nat, text: bool)
    requires t == d + o && t + len <= |s|
    requires text ==> forall q :: o <= q < o + len ==> MatchAt(s[d..], q) == None
    requires !text ==> MatchAt(s[d..], o) == Some(o + len)
    ensures text ==> forall q :: t <= q < t + len ==> MatchAt(s, q) == None
    ensures !text ==> MatchAt(s, t) == Some(t + len)
  {
    if text {
      forall q | t <= q < t + len
        ensures MatchAt(s, q) == None
      {
        MatchAtShift(s, d, q - d);
      }
    } else {
      MatchAtShift(s, d, o);
    }
  }

  /**
   * The split scans for the leftmost match: no match starts anywhere inside
   * a text part, and each separator part is exactly the match found at its
   * start.
   */
  lemma {:induction false} SplitLeftmostAt(s: string, i: nat)
    requires i < |Split(s)|
    ensures PartStart(Split(s), i) + |Split(s)[i]| <= |s|
    ensures i % 2 == 0 ==>
              forall q :: PartStart(Split(s), i) <= q < PartStart(Split(s), i) + |Split(s)[i]| ==> MatchAt(s, q) == None
    ensures i % 2 == 1 ==> MatchAt(s, PartStart(Split(s), i)) == Some(PartStart(Split(s), i) + |Split(s)[i]|)
    decreases |s|, 1
  {
    var parts := Split(s);
    PartEnd(parts, i);
    SplitConcat(s);
    assert parts[..|parts|] == parts;
    if s == [] {
      assert parts == [""];
    } else {
      match MatchAt(s, 0)
      case Some(e) =>
        LeftmostAfterMatch(s, e, i);
      case None =>
        LeftmostAfterText(s, i);
    }
  }

  /** `SplitLeftmostAt` when the message starts with a match ending at `e`. */
  lemma {:induction false} LeftmostAfterMatch(s: string, e: nat, i: nat)
    requires s != [] && MatchAt(s, 0) == Some(e) && i < |Split(s)|
    requires PartStart(Split(s), i) + |Split(s)[i]| <= |s|
    ensures LeftmostPart(s, Split(s), i)
    decreases |s|, 0
  {
    var parts := Split(s);
    var rest := Split(s[e..]);
    var first := ["", s[..e]];
    assert parts == first + rest;
    if i == 0 {
      assert parts[0] == "";
    } else if i == 1 {
      assert parts[..1] == [""];
      ConcatCons(parts[..1]);
      assert PartStart(parts, 1) == 0;
    } else {
      var j := i - 2;
      SplitLeftmostAt(s[e..], j);
      ConcatCons(first);
      ConcatCons(first[1..]);
      assert first[1..][1..] == [];
      PartStartAfter(first, rest, j);
      var o, o' := PartStart(parts, i), PartStart(rest, j);
      assert o == e + o';
      assert parts[i] == rest[j];
      var len := |parts[i]|;
      assert len == |rest[j]|;
      ParityStep(i);
      ShiftPart(s, e, o', o, len, i % 2 == 0);
    }
  }

  /** `SplitLeftmostAt` when no match starts at the message's first character. */
  lemma {:induction false} LeftmostAfterText(s: string, i: nat)
    requires s != [] && MatchAt(s, 0) == None && i < |Split(s)|
    requires PartStart(Split(s), i) + |Split(s)[i]| <= |s|
    ensures LeftmostPart(s, Split(s), i)
    decreases |s|, 0
  {
    var parts := Split(s);
    var rest := Split(s[1..]);
    assert parts == [[s[0]] + rest[0]] + rest[1..];
    SplitLeftmostAt(s[1..], i);
    if i == 0 {
      assert PartStart(parts, 0) == 0 && PartStart(rest, 0) == 0;
      forall q | 0 <= q < |parts[0]|
        ensures MatchAt(s, q) == None
      {
        if q > 0 {
          MatchAtShift(s, 1, q - 1);
        }
      }
    } else {
      PartStartCons(s[0], rest, i);
      var o, o' := PartStart(parts, i), PartStart(rest, i);
      assert o == 1 + o';
      assert parts[i] == rest[i];
      var len := |parts[i]|;
      assert len == |rest[i]|;
      ShiftPart(s, 1, o', o, len, i % 2 == 0);
    }
  }

  /** The renderer's test for a placeholder part: it starts with `{` and ends with `}`. */
  predicate IsPlaceholder(part: string) {
    |part| > 0 && part[0] == '{' && part[|part| - 1] == '}'
  }

  /** Every separator part passes the renderer's placeholder test. */
  lemma TokenIsPlaceholder(t: string)
    requires IsToken(t)
    ensures IsPlaceholder(t)
  {
  }

  /** Text free of placeholders passes the placeholder test only by starting with `{}`, the one brace pair the expression does not match. */
  lemma PlainPlaceholderStartsEmpty(t: string)
    requires Plain(t) && IsPlaceholder(t)
    ensures |t| >= 2 && t[..2] == "{}"
  {
    var j := CloseFrom(t, 1);
    assert j <= |t| - 1;
    assert !IsToken(t[0..j + 1]);
  }

  /** A text part can pass the placeholder test too: literal `{}` is read as a placeholder with an empty name. */
  lemma EmptyBracesReadAsPlaceholder()
    ensures Split("{}") == ["{}"]
    ensures IsPlaceholder("{}") && EmojiName("{}") == ""
  {
    var close, braces := "}", "{}";
    assert MatchAt(braces, 0) == None;
    assert MatchAt(close, 0) == None;
    assert close[1..] == "";
    assert Split(close[1..]) == [""];
    assert Split(close) == [[close[0]] + ""];
    assert [close[0]] + "" == close;
    assert braces[1..] == close;
    assert Split(braces[1..]) == [close];
    assert [braces[0]] + close == braces;
    assert Split(braces) == [[braces[0]] + close];
  }

  /** JavaScript's white space and line terminators, the characters `trim` removes. */
  predicate IsWhiteSpace(c: char) {
    var n := c as int;
    (0x09 <= n <= 0x0D) || n == 0x20 || n == 0xA0 || n == 0x1680 ||
    (0x2000 <= n <= 0x200A) || n == 0x2028 || n == 0x2029 || n == 0x202F ||
    n == 0x205F || n == 0x3000 || n == 0xFEFF
  }

  /** `s` without its leading white space. */
  function TrimStart(s: string): (r: string)
    ensures |r| <= |s| && r == s[|s| - |r|..]
    ensures forall i :: 0 <= i < |s| - |r| ==> IsWhiteSpace(s[i])
    ensures r == [] || !IsWhiteSpace(r[0])
    decreases |s|
  {
    if s != [] && IsWhiteSpace(s[0]) then TrimStart(s[1..]) else s
  }

  /** `s` without its trailing white space. */
  function TrimEnd(s: string): (r: string)
    ensures |r| <= |s| && r == s[..|r|]
    ensures forall i :: |r| <= i < |s| ==> IsWhiteSpace(s[i])
    ensures r == [] || !IsWhiteSpace(r[|r| - 1])
    decreases |s|
  {
    if s != [] && IsWhiteSpace(s[|s| - 1]) then TrimEnd(s[..|s| - 1]) else s
  }

  /** `s.trim()`: white space removed from both ends. */
  function Trim(s: string): (r: string)
    ensures |r| <= |s|
    ensures r == [] || (!IsWhiteSpace(r[0]) && !IsWhiteSpace(r[|r| - 1]))
  {
    TrimEnd(TrimStart(s))
  }

  /** Trimming removes white space and nothing else: the result is the middle of `s`, between white-space runs. */
  lemma TrimRemovesOnlyWhiteSpace(s: string)
    ensures var r, k := Trim(s), |s| - |TrimStart(s)|;
            k + |r| <= |s| && r == s[k..k + |r|] &&
            (forall i :: 0 <= i < k ==> IsWhiteSpace(s[i])) &&
            (forall i :: k + |r| <= i < |s| ==> IsWhiteSpace(s[i]))
  {
    var a := TrimStart(s);
    var r := TrimEnd(a);
    var k := |s| - |a|;
    assert a == s[k..];
    assert r == a[..|r|];
    forall i | k + |r| <= i < |s|
      ensures IsWhiteSpace(s[i])
    {
      assert s[i] == a[i - k];
    }
  }

  /** Trimming twice is trimming once. */
  lemma TrimIdempotent(s: string)
    ensures Trim(Trim(s)) == Trim(s)
  {
    var r := Trim(s);
    assert TrimStart(r) == r;
    assert TrimEnd(r) == r;
  }

  /** `part.slice(1, -1).trim()`: the name between the braces, white space trimmed. */
  function EmojiName(part: string): (name: string)
    requires IsPlaceholder(part)
    ensures |name| <= |part| - 2
  {
    Trim(part[1..|part| - 1])
  }
}
