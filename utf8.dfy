/** Byte lengths of text in UTF-8, as section 3 of RFC 3629 defines the encoding:
    one to four octets per code point, chosen by the code point's range. */
module Utf8 {

  /** Number of octets UTF-8 uses for the code point `c`. */
  function CharLength(c: char): (n: nat)
    ensures 1 <= n <= 4
    ensures n == 1 <==> c as int < 0x80
  {
    if c as int < 0x80 then 1
    else if c as int < 0x800 then 2
    else if c as int < 0x10000 then 3
    else 4
  }

  /** Number of octets of the UTF-8 encoding of `s`. */
  function Length(s: string): nat
  {
    PrefixLength(s, |s|)
  }

  /** Number of octets of the first `n` code points of `s`. */
  function PrefixLength(s: string, n: nat): nat
    requires n <= |s|
  {
    if n == 0 then 0 else PrefixLength(s, n - 1) + CharLength(s[n - 1])
  }

  predicate IsAscii(s: string)
  {
    forall i :: 0 <= i < |s| ==> s[i] as int < 0x80
  }

  /** The count of a prefix depends only on the code points in it. */
  lemma {:induction false} PrefixLengthAgree(s: string, t: string, n: nat)
    requires n <= |s| && n <= |t|
    requires forall i :: 0 <= i < n ==> s[i] == t[i]
    ensures PrefixLength(s, n) == PrefixLength(t, n)
  {
    if n > 0 {
      PrefixLengthAgree(s, t, n - 1);
    }
  }

  lemma {:induction false} PrefixLengthAppend(a: string, b: string, n: nat)
    requires n <= |b|
    ensures PrefixLength(a + b, |a| + n) == Length(a) + PrefixLength(b, n)
  {
    if n == 0 {
      PrefixLengthAgree(a + b, a, |a|);
    } else {
      PrefixLengthAppend(a, b, n - 1);
      assert (a + b)[|a| + n - 1] == b[n - 1];
    }
  }

  /** The octets of two texts written one after the other add up. */
  lemma LengthAppend(a: string, b: string)
    ensures Length(a + b) == Length(a) + Length(b)
  {
    PrefixLengthAppend(a, b, |b|);
  }

  /** Every code point takes at least one and at most four octets. */
  lemma LengthBounds(s: string)
    ensures |s| <= Length(s) <= 4 * |s|
  {
    PrefixLengthBounds(s, |s|);
  }

  lemma {:induction false} PrefixLengthBounds(s: string, n: nat)
    requires n <= |s|
    ensures n <= PrefixLength(s, n) <= 4 * n
  {
    if n > 0 {
      PrefixLengthBounds(s, n - 1);
    }
  }

  /** ASCII text takes one octet per character. */
  lemma AsciiLength(s: string)
    requires IsAscii(s)
    ensures Length(s) == |s|
  {
    AsciiPrefixLength(s, |s|);
  }

  lemma {:induction false} AsciiPrefixLength(s: string, n: nat)
    requires n <= |s| && IsAscii(s)
    ensures PrefixLength(s, n) == n
  {
    if n > 0 {
      AsciiPrefixLength(s, n - 1);
    }
  }
}
