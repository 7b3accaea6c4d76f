/** The text sinks the renderers write into: a growable string and the byte-counting
    `Sizer` of src/fmt/sizer.rs. Rendering code is written once against `Writer`, the
    union of the two, so that measuring and writing run the same steps. */
module Sink {
  import Utf8

  /** std::fmt::Result. Neither concrete sink ever reports an error. */
  datatype FmtResult = Ok | Error

  /** A `String` used as a `fmt::Write` sink. */
  class StringSink {
    var text: string

    constructor ()
      ensures text == []
    {
      text := [];
    }

    method WriteStr(s: string) returns (r: FmtResult)
      modifies this
      ensures text == old(text) + s && r == Ok
    {
      text := text + s;
      r := Ok;
    }

    method WriteChar(c: char) returns (r: FmtResult)
      modifies this
      ensures text == old(text) + [c] && r == Ok
    {
      text := text + [c];
      r := Ok;
    }
  }

  /** A sink that keeps no text, only the number of UTF-8 octets written so far.
      `written` is the text a string sink would hold after the same writes. */
  class Sizer {
    var size: nat
    ghost var written: string

    ghost predicate Valid()
      reads this
    {
      size == Utf8.Length(written)
    }

    constructor ()
      ensures Valid() && written == [] && size == 0
    {
      size := 0;
      written := [];
    }

    method WriteStr(s: string) returns (r: FmtResult)
      requires Valid()
      modifies this
      ensures Valid() && written == old(written) + s
      ensures size == old(size) + Utf8.Length(s) && r == Ok
    {
      Utf8.LengthAppend(written, s);
      size := size + Utf8.Length(s);
      written := written + s;
      r := Ok;
    }

    method WriteChar(c: char) returns (r: FmtResult)
      requires Valid()
      modifies this
      ensures Valid() && written == old(written) + [c]
      ensures size == old(size) + Utf8.CharLength(c) && old(size) < size <= old(size) + 4
      ensures r == Ok
    {
      Utf8.LengthAppend(written, [c]);
      assert Utf8.Length([c]) == Utf8.PrefixLength([c], 0) + Utf8.CharLength(c);
      size := size + Utf8.CharLength(c);
      written := written + [c];
      r := Ok;
    }

    method Size() returns (n: nat)
      requires Valid()
      ensures n == Utf8.Length(written)
    {
      n := size;
    }
  }

  /** The `W: Write` parameter of every renderer: one of the two concrete sinks. */
  datatype Writer = Buffer(buf: StringSink) | Measure(sizer: Sizer)
  {
    function Target(): object
    {
      if Buffer? then buf else sizer
    }

    ghost predicate Valid()
      reads Target()
    {
      Measure? ==> sizer.Valid()
    }

    /** The text written into the sink so far (for a Sizer, the text it has counted). */
    ghost function Written(): string
      reads Target()
    {
      if Buffer? then buf.text else sizer.written
    }
  }

  method WriteStr(w: Writer, s: string)
    requires w.Valid()
    modifies w.Target()
    ensures w.Valid() && w.Written() == old(w.Written()) + s
  {
    match w
    case Buffer(b) =>
      var _ := b.WriteStr(s);
    case Measure(z) =>
      var _ := z.WriteStr(s);
  }

  method WriteChar(w: Writer, c: char)
    requires w.Valid()
    modifies w.Target()
    ensures w.Valid() && w.Written() == old(w.Written()) + [c]
  {
    match w
    case Buffer(b) =>
      var _ := b.WriteChar(c);
    case Measure(z) =>
      var _ := z.WriteChar(c);
  }
}
