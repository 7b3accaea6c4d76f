/** `size_hint` of src/fmt/cairo_write.rs and src/fmt/write.rs: render a value into a
    `Sizer` instead of a string and report the number of UTF-8 octets it counted, which
    is the length in octets of the text `cwrite` writes. */
module SizeHints {
  import opened Sink
  import Utf8
  import CairoWrite
  import Hex
  import Macros

  /** `size_hint`: the octet length of the value's text, between one and four octets per
      character, and one octet per character for ASCII text. */
  method SizeHint<T>(e: T, render: T -> string) returns (n: nat)
    ensures n == Utf8.Length(render(e))
    ensures |render(e)| <= n <= 4 * |render(e)|
    ensures Utf8.IsAscii(render(e)) ==> n == |render(e)|
  {
    var sizer := new Sizer();
    CairoWrite.Cwrite(e, render, Measure(sizer));
    assert sizer.written == render(e);
    n := sizer.Size();
    Utf8.LengthBounds(render(e));
    if Utf8.IsAscii(render(e)) {
      Utf8.AsciiLength(render(e));
    }
  }

  /** `size_hint` of a 32-byte array: always 66, `0x` and two digits per byte. */
  method Hex32SizeHint(bs: seq<Hex.Byte>) returns (n: nat)
    requires |bs| == 32
    ensures n == 66
  {
    var sizer := new Sizer();
    Hex.CwriteHex32(Measure(sizer), bs);
    assert sizer.written == Hex.Hex32(bs);
    n := sizer.Size();
    Hex.Hex32Size(bs);
  }

  /** `size_hint` of a macro rule, whose `cwrite` reaches the sizer in several writes
      (the left side, ` => `, the braced right side, `;`): the counted size is the sum of
      the parts' octet lengths, the seven ASCII octets of the fixed text included. */
  method RuleSizeHint(r: Macros.MacroRule) returns (n: nat)
    ensures n == Utf8.Length(Macros.RuleText(r))
    ensures n == Utf8.Length(Macros.ElementText(r.lhs)) + Utf8.Length(Macros.ElementsText(r.rhs)) + 7
  {
    var sizer := new Sizer();
    Macros.CwriteRule(r, Measure(sizer));
    assert sizer.written == Macros.RuleText(r);
    n := sizer.Size();
    RuleTextLength(r);
  }

  /** The octet length of a rule's text, part by part. */
  lemma RuleTextLength(r: Macros.MacroRule)
    ensures Utf8.Length(Macros.RuleText(r))
      == Utf8.Length(Macros.ElementText(r.lhs)) + Utf8.Length(Macros.ElementsText(r.rhs)) + 7
  {
    var lhs := Macros.ElementText(r.lhs);
    var rhs := Macros.ElementsText(r.rhs);
    Utf8.LengthAppend(lhs + " => " + ("{" + rhs + "}"), ";");
    Utf8.LengthAppend(lhs + " => ", "{" + rhs + "}");
    Utf8.LengthAppend(lhs, " => ");
    Utf8.LengthAppend("{" + rhs, "}");
    Utf8.LengthAppend("{", rhs);
    Utf8.AsciiLength(";");
    Utf8.AsciiLength(" => ");
    Utf8.AsciiLength("{");
    Utf8.AsciiLength("}");
  }
}
