/** Strings as the library treats them: trimming, searching, splitting in lines. */
module Text {
  predicate Alphanumeric(c: char) {
    'a' <= c <= 'z' || 'A' <= c <= 'Z' || '0' <= c <= '9'
  }

  /** Bytes of a character in UTF-8. */
  function Width(c: char): nat {
    if c < '\U{80}' then 1 else if c < '\U{800}' then 2 else if c < '\U{10000}' then 3 else 4
  }

  function ByteLength(s: string): nat {
    if s == [] then 0 else Width(s[0]) + ByteLength(s[1..])
  }

  /** Unicode White_Space. */
  predicate Whitespace(c: char) {
    '\t' <= c <= '\r' || c == ' ' || c == '\U{85}' || c == '\U{A0}' || c == '\U{1680}' ||
    '\U{2000}' <= c <= '\U{200A}' || c == '\U{2028}' || c == '\U{2029}' || c == '\U{202F}' ||
    c == '\U{205F}' || c == '\U{3000}'
  }

  function TrimStart(s: string): (r: string)
    ensures |r| <= |s| && r == s[|s| - |r|..]
    ensures r == [] || !Whitespace(r[0])
  {
    if s != [] && Whitespace(s[0]) then TrimStart(s[1..]) else s
  }

  function TrimEnd(s: string): (r: string)
    ensures |r| <= |s| && r == s[..|r|]
    ensures r == [] || !Whitespace(r[|r| - 1])
  {
    if s != [] && Whitespace(s[|s| - 1]) then TrimEnd(s[..|s| - 1]) else s
  }

  /** Leading white space goes, and no more. */
  lemma {:induction false} TrimStartIs(w: string, r: string)
    requires (forall i :: 0 <= i < |w| ==> Whitespace(w[i])) && r != [] && !Whitespace(r[0])
    ensures TrimStart(w + r) == r
  {
    if w == [] {
      assert w + r == r;
    } else {
      assert (w + r)[1..] == w[1..] + r;
      TrimStartIs(w[1..], r);
    }
  }

  /** Only white space is trimmed. */
  lemma {:induction false} TrimmedBlank(s: string)
    ensures forall i :: 0 <= i < |s| - |TrimStart(s)| ==> Whitespace(s[i])
  {
    if s != [] && Whitespace(s[0]) {
      TrimmedBlank(s[1..]);
      forall i | 0 <= i < |s| - |TrimStart(s)|
        ensures Whitespace(s[i])
      {
        assert i > 0 ==> s[i] == s[1..][i - 1];
      }
    }
  }

  function Trim(s: string): (r: string)
    ensures r == [] || (!Whitespace(r[0]) && !Whitespace(r[|r| - 1]))
  {
    TrimStart(TrimEnd(s))
  }

  predicate StartsWith(s: string, p: string) {
    p <= s
  }

  predicate StartsWithAny(s: string, ps: seq<string>) {
    exists i :: 0 <= i < |ps| && StartsWith(s, ps[i])
  }

  predicate EndsWith(s: string, p: string) {
    |p| <= |s| && s[|s| - |p|..] == p
  }

  predicate Contains(s: string, p: string) {
    p <= s || (s != [] && Contains(s[1..], p))
  }

  // ------------------------------------------------------------------ lines

  /** Index of the first line feed, or the length. */
  function LineFeed(s: string): (k: nat)
    ensures k <= |s| && '\n' !in s[..k] && (k < |s| ==> s[k] == '\n')
  {
    if s == [] || s[0] == '\n' then 0
    else
      var k := LineFeed(s[1..]);
      assert s[..k + 1] == [s[0]] + s[1..][..k];
      k + 1
  }

  function StripReturn(s: string): (r: string)
    ensures r <= s && |s| <= |r| + 1
  {
    if s != [] && s[|s| - 1] == '\r' then s[..|s| - 1] else s
  }

  /** `str::lines`: a line ends at a line feed, with its carriage return if it has one. */
  function Lines(s: string): seq<string>
    decreases |s|
  {
    if s == [] then []
    else
      var k := LineFeed(s);
      if k == |s| then [s] else [StripReturn(s[..k])] + Lines(s[k + 1..])
  }

  /** Joining with line feeds. */
  function Join(ls: seq<string>): string {
    if ls == [] then [] else if |ls| == 1 then ls[0] else ls[0] + "\n" + Join(ls[1..])
  }

  /** The bounds of a line: it starts the text or follows a line feed, and ends the text
      or stands before its terminator. */
  ghost predicate LineBounds(s: string, i: nat, j: nat) {
    && i <= j <= |s|
    && (i == 0 || s[i - 1] == '\n')
    && (j == |s| || s[j] == '\n' || s[j] == '\r')
  }

  /** A slice of the text with the bounds of a line. */
  ghost predicate LineOf(s: string, line: string) {
    exists i: nat, j: nat :: LineBounds(s, i, j) && line == s[i..j]
  }

  lemma LineShift(s: string, k: nat, line: string)
    requires k < |s| && s[k] == '\n' && LineOf(s[k + 1..], line)
    ensures LineOf(s, line)
  {
    var i: nat, j: nat :| LineBounds(s[k + 1..], i, j) && line == s[k + 1..][i..j];
    assert LineBounds(s, i + k + 1, j + k + 1);
    assert line == s[i + k + 1..j + k + 1];
  }

  lemma LineFront(s: string, k: nat)
    requires k < |s| && s[k] == '\n'
    ensures LineOf(s, StripReturn(s[..k]))
  {
    var line := StripReturn(s[..k]);
    assert LineBounds(s, 0, |line|) && line == s[0..|line|];
  }

  lemma LinesUnfold(s: string)
    requires LineFeed(s) < |s|
    ensures var k := LineFeed(s); Lines(s) == [StripReturn(s[..k])] + Lines(s[k + 1..])
  {
  }

  ghost predicate AllLinesOf(s: string, lines: seq<string>) {
    forall n :: 0 <= n < |lines| ==> LineOf(s, lines[n])
  }

  lemma LinesCons(s: string, k: nat, first: string, rest: seq<string>)
    requires k < |s| && s[k] == '\n' && LineOf(s, first) && AllLinesOf(s[k + 1..], rest)
    ensures AllLinesOf(s, [first] + rest)
  {
    forall n | 0 <= n < |rest|
      ensures LineOf(s, rest[n])
    {
      LineShift(s, k, rest[n]);
    }
  }

  lemma WholeLine(s: string)
    ensures LineOf(s, s)
  {
    assert LineBounds(s, 0, |s|) && s == s[0..|s|];
  }

  lemma LinesWhole(s: string)
    requires LineFeed(s) == |s|
    ensures AllLinesOf(s, Lines(s))
  {
    WholeLine(s);
  }

  lemma LinesSplit(s: string, k: nat, tail: string)
    requires k == LineFeed(s) < |s| && tail == s[k + 1..] && AllLinesOf(tail, Lines(tail))
    ensures AllLinesOf(s, Lines(s))
  {
    LinesUnfold(s);
    LineFront(s, k);
    LinesCons(s, k, StripReturn(s[..k]), Lines(tail));
  }

  /** Every line is a slice of its text. */
  lemma {:induction false} LinesAreSlices(s: string)
    ensures AllLinesOf(s, Lines(s))
    decreases |s|
  {
    var k := LineFeed(s);
    if k == |s| {
      LinesWhole(s);
    } else {
      LinesAreSlices(s[k + 1..]);
      LinesSplit(s, k, s[k + 1..]);
    }
  }
}
