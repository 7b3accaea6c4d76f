/** Fixed-width hexadecimal rendering of 32- and 31-byte arrays: `0x` and two lower-case
    digits per byte, most significant first (`{:02x}` of each byte). The 31-byte form
    spells an extra zero byte, so both forms are 66 characters long. The same two
    renderers appear as `CWrite` in src/fmt/write.rs and src/fmt/cairo_write.rs and as
    `Display` in src/cformat/write.rs; they are modelled once. */
module Hex {
  import opened Sink
  import Utf8

  type Byte = b: int | 0 <= b < 256

  predicate IsHexDigit(c: char)
  {
    '0' <= c <= '9' || 'a' <= c <= 'f'
  }

  /** The lower-case digit of a nibble. */
  function Digit(n: int): (c: char)
    requires 0 <= n < 16
    ensures IsHexDigit(c)
    ensures DigitValue(c) == n
    ensures ('0' <= c <= '9') <==> n < 10
  {
    if n < 10 then ('0' as int + n) as char else ('a' as int + n - 10) as char
  }

  /** The nibble a lower-case digit stands for: the inverse of `Digit`. */
  function DigitValue(c: char): (n: int)
    requires IsHexDigit(c)
    ensures 0 <= n < 16
  {
    if c <= '9' then c as int - '0' as int else c as int - 'a' as int + 10
  }

  /** `{:02x}`: two digits, the high nibble first. */
  function ByteHex(b: Byte): (s: string)
  {
    [Digit(b / 16), Digit(b % 16)]
  }

  /** The two-digit spellings of `bs`, back to back. */
  function HexDigits(bs: seq<Byte>): string
  {
    if bs == [] then "" else HexDigits(bs[..|bs| - 1]) + ByteHex(bs[|bs| - 1])
  }

  /** `cwrite` of `[u8; 32]`. */
  function Hex32(bs: seq<Byte>): string
    requires |bs| == 32
  {
    "0x" + HexDigits(bs)
  }

  /** `cwrite` of `[u8; 31]`. */
  function Hex31(bs: seq<Byte>): string
    requires |bs| == 31
  {
    "0x00" + HexDigits(bs)
  }

  predicate AllHexDigits(s: string)
  {
    forall i :: 0 <= i < |s| ==> IsHexDigit(s[i])
  }

  /** Reads a run of digit pairs back into bytes. */
  function Unhex(s: string): (bs: seq<Byte>)
    requires |s| % 2 == 0 && AllHexDigits(s)
    ensures |bs| == |s| / 2
  {
    if s == [] then []
    else
      var n := |s|;
      Unhex(s[..n - 2]) + [DigitValue(s[n - 2]) * 16 + DigitValue(s[n - 1])]
  }

  /** Every byte takes exactly two characters, all of them lower-case digits. */
  lemma {:induction false} HexDigitsShape(bs: seq<Byte>)
    ensures |HexDigits(bs)| == 2 * |bs|
    ensures AllHexDigits(HexDigits(bs))
  {
    if bs != [] {
      HexDigitsShape(bs[..|bs| - 1]);
    }
  }

  /** Byte `k` is spelled at positions 2k and 2k + 1. */
  lemma {:induction false} HexDigitsAt(bs: seq<Byte>, k: nat)
    requires k < |bs|
    ensures |HexDigits(bs)| == 2 * |bs|
    ensures HexDigits(bs)[2 * k] == Digit(bs[k] / 16)
    ensures HexDigits(bs)[2 * k + 1] == Digit(bs[k] % 16)
  {
    HexDigitsShape(bs);
    var init := bs[..|bs| - 1];
    HexDigitsShape(init);
    if k < |bs| - 1 {
      HexDigitsAt(init, k);
    }
  }

  /** Decoding the digits gives the bytes back. */
  lemma {:induction false} UnhexHexDigits(bs: seq<Byte>)
    ensures |HexDigits(bs)| % 2 == 0 && AllHexDigits(HexDigits(bs))
    ensures Unhex(HexDigits(bs)) == bs
  {
    HexDigitsShape(bs);
    if bs != [] {
      var init := bs[..|bs| - 1];
      var b := bs[|bs| - 1];
      var s := HexDigits(bs);
      HexDigitsShape(init);
      assert s == HexDigits(init) + ByteHex(b);
      assert s[..|s| - 2] == HexDigits(init);
      assert s[|s| - 2] == Digit(b / 16) && s[|s| - 1] == Digit(b % 16);
      UnhexHexDigits(init);
      assert bs == init + [b];
    }
  }

  /** Different byte arrays never print alike. */
  lemma HexDigitsInjective(a: seq<Byte>, b: seq<Byte>)
    requires HexDigits(a) == HexDigits(b)
    ensures a == b
  {
    UnhexHexDigits(a);
    UnhexHexDigits(b);
  }

  /** The 32-byte form: 66 characters, `0x` then the digits of every byte, and it decodes. */
  lemma Hex32Shape(bs: seq<Byte>)
    requires |bs| == 32
    ensures |Hex32(bs)| == 66 && Hex32(bs)[..2] == "0x"
    ensures AllHexDigits(Hex32(bs)[2..]) && Unhex(Hex32(bs)[2..]) == bs
  {
    UnhexHexDigits(bs);
    assert Hex32(bs)[2..] == HexDigits(bs);
  }

  /** The 31-byte form is the 32-byte form of the same value with a zero high byte. */
  lemma Hex31IsZeroExtended(bs: seq<Byte>)
    requires |bs| == 31
    ensures Hex31(bs) == Hex32([0] + bs)
    ensures |Hex31(bs)| == 66
  {
    HexDigitsPrepend(0, bs);
    HexDigitsShape(bs);
  }

  lemma {:induction false} HexDigitsPrepend(b: Byte, bs: seq<Byte>)
    ensures HexDigits([b] + bs) == ByteHex(b) + HexDigits(bs)
    decreases |bs|
  {
    if bs == [] {
      assert [b] + bs == [b];
      assert [b][..0] == [];
    } else {
      var init := bs[..|bs| - 1];
      assert ([b] + bs)[..|bs|] == [b] + init;
      HexDigitsPrepend(b, init);
    }
  }

  /** Both forms are ASCII, so the byte count a `Sizer` records equals the length: 66. */
  lemma Hex32Size(bs: seq<Byte>)
    requires |bs| == 32
    ensures Utf8.Length(Hex32(bs)) == 66
  {
    HexDigitsShape(bs);
    var s := Hex32(bs);
    assert Utf8.IsAscii(s) by {
      forall i | 0 <= i < |s| ensures s[i] as int < 0x80 {
        if i >= 2 {
          assert s[i] == HexDigits(bs)[i - 2];
        }
      }
    }
    Utf8.AsciiLength(s);
  }

  /** The all-zero array prints as `0x` and 64 zeros. */
  lemma {:induction false} ZeroDigits(bs: seq<Byte>)
    requires forall i :: 0 <= i < |bs| ==> bs[i] == 0
    ensures HexDigits(bs) == seq(2 * |bs|, _ => '0')
  {
    if bs != [] {
      ZeroDigits(bs[..|bs| - 1]);
      assert HexDigits(bs) == seq(2 * (|bs| - 1), _ => '0') + ['0', '0'];
    }
  }

  method WriteByteHex(w: Writer, b: Byte)
    requires w.Valid()
    modifies w.Target()
    ensures w.Valid() && w.Written() == old(w.Written()) + ByteHex(b)
  {
    WriteStr(w, ByteHex(b));
  }

  /** The byte loop shared by both renderers. */
  method WriteHexDigits(w: Writer, bs: seq<Byte>)
    requires w.Valid()
    modifies w.Target()
    ensures w.Valid() && w.Written() == old(w.Written()) + HexDigits(bs)
  {
    var i := 0;
    while i < |bs|
      invariant 0 <= i <= |bs|
      invariant w.Valid() && w.Written() == old(w.Written()) + HexDigits(bs[..i])
    {
      WriteByteHex(w, bs[i]);
      assert bs[..i + 1][..i] == bs[..i];
      i := i + 1;
    }
    assert bs[..|bs|] == bs;
  }

  method CwriteHex32(w: Writer, bs: seq<Byte>)
    requires |bs| == 32 && w.Valid()
    modifies w.Target()
    ensures w.Valid() && w.Written() == old(w.Written()) + Hex32(bs)
  {
    WriteStr(w, "0x");
    WriteHexDigits(w, bs);
  }

  method CwriteHex31(w: Writer, bs: seq<Byte>)
    requires |bs| == 31 && w.Valid()
    modifies w.Target()
    ensures w.Valid() && w.Written() == old(w.Written()) + Hex31(bs)
  {
    WriteStr(w, "0x00");
    WriteHexDigits(w, bs);
  }
}
