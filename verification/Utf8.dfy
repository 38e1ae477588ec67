/** Byte strings: a byte is a character below U+0100. Validity and character boundaries of UTF-8. */
module Utf8 {

  predicate Continuation(c: char) {
    '\U{80}' <= c < '\U{C0}'
  }

  /** Bytes of the character whose first byte is `c`; zero when none starts with it. */
  function CharLen(c: char): (n: nat)
    ensures n <= 4
  {
    if c < '\U{80}' then 1
    else if '\U{C2}' <= c < '\U{E0}' then 2
    else if '\U{E0}' <= c < '\U{F0}' then 3
    else if '\U{F0}' <= c <= '\U{F4}' then 4
    else 0
  }

  /** The second byte of a three- or four-byte character: no overlong form, no surrogate,
      nothing above U+10FFFF. */
  predicate SecondByte(c: char, d: char) {
    && (c == '\U{E0}' ==> '\U{A0}' <= d)
    && (c == '\U{ED}' ==> d < '\U{A0}')
    && (c == '\U{F0}' ==> '\U{90}' <= d)
    && (c == '\U{F4}' ==> d < '\U{90}')
  }

  /** A whole character stands at the front. */
  predicate CharAt(s: string) {
    && s != []
    && var n := CharLen(s[0]);
       && 0 < n <= |s|
       && (n >= 2 ==> Continuation(s[1]) && SecondByte(s[0], s[1]))
       && (n >= 3 ==> Continuation(s[2]))
       && (n >= 4 ==> Continuation(s[3]))
  }

  predicate Valid(s: string)
    decreases |s|
  {
    s == [] || (CharAt(s) && Valid(s[CharLen(s[0])..]))
  }

  /** `is_char_boundary` */
  predicate Boundary(s: string, i: nat)
    requires i <= |s|
  {
    i == 0 || i == |s| || !Continuation(s[i])
  }

  /** `floor_char_boundary` */
  function Floor(s: string, i: nat): (b: nat)
    requires i <= |s|
    ensures b <= i && Boundary(s, b)
    ensures forall k :: b < k <= i ==> !Boundary(s, k)
  {
    if Boundary(s, i) then i else Floor(s, i - 1)
  }

  /** `ceil_char_boundary` */
  function Ceil(s: string, i: nat): (b: nat)
    requires i <= |s|
    ensures i <= b <= |s| && Boundary(s, b)
    ensures forall k :: i <= k < b ==> !Boundary(s, k)
    decreases |s| - i
  {
    if Boundary(s, i) then i else Ceil(s, i + 1)
  }

  lemma CharAtFront(a: string, b: string)
    requires CharAt(a)
    ensures CharAt(a + b) && CharLen((a + b)[0]) == CharLen(a[0])
  {
  }

  lemma {:induction false} ValidConcat(a: string, b: string)
    requires Valid(a) && Valid(b)
    ensures Valid(a + b)
    decreases |a|
  {
    if a == [] {
      assert a + b == b;
    } else {
      var n := CharLen(a[0]);
      CharAtFront(a, b);
      ValidConcat(a[n..], b);
      var s := a + b;
      assert s[n..] == a[n..] + b;
      assert Valid(s[n..]);
    }
  }

  /** A cut at a boundary cuts between characters. */
  lemma {:induction false} ValidSplit(s: string, i: nat)
    requires Valid(s) && i <= |s| && Boundary(s, i)
    ensures Valid(s[..i]) && Valid(s[i..])
    decreases |s|
  {
    if i == 0 {
      assert s[i..] == s && s[..i] == [];
    } else {
      var n := CharLen(s[0]);
      assert n <= i;
      if i > n {
        assert Boundary(s[n..], i - n);
      }
      ValidSplit(s[n..], i - n);
      assert s[n..][..i - n] == s[n..i] && s[n..][i - n..] == s[i..];
      assert s[..i] == s[..n] + s[n..i];
      assert s[..i][n..] == s[n..i];
    }
  }

  lemma {:induction false} AsciiValid(s: string)
    requires forall i :: 0 <= i < |s| ==> s[i] < '\U{80}'
    ensures Valid(s)
  {
    if s != [] {
      AsciiValid(s[1..]);
    }
  }
}
