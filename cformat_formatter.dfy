/** The sequence formatters of src/cformat/formatter.rs: one `FormatOp` applied to every
    element of a slice, back to back (`fmt_all`), to one element (`fmt_index`), with a
    delimiter token strictly between neighbours (`Delimited`), or as a bare value or a
    parenthesized, comma-separated tuple (`ValueOrTuple`). */
module CFormatter {
  import opened Sink
  import opened Tokens
  import opened Layout
  import opened CFormatOp

  /** An element's text under `op`: the operation applied to the element's own text. */
  function Formatter<T>(op: FormatOp, render: T -> string): T -> string
  {
    e => Format(op, render(e))
  }

  lemma FormatterApply<T>(op: FormatOp, render: T -> string, e: T)
    ensures Formatter(op, render)(e) == Format(op, render(e))
  {
  }

  /** The formatted text of every element, in order. */
  function FormattedAll<T>(op: FormatOp, es: seq<T>, render: T -> string): (r: seq<string>)
    ensures |r| == |es|
  {
    Rendered(es, Formatter(op, render))
  }

  /** `ValueOrTuple`: `()` for no element, the element alone for one, and otherwise the
      elements separated by a bare comma inside parentheses. */
  function ValueOrTuple(parts: seq<string>): string
  {
    if |parts| == 0 then "()"
    else if |parts| == 1 then parts[0]
    else "(" + Joined(parts, ",") + ")"
  }

  /** Element `i` of the formatted sequence is the operation applied to element `i`. */
  lemma FormattedAllAt<T>(op: FormatOp, es: seq<T>, render: T -> string, i: nat)
    requires i < |es|
    ensures FormattedAll(op, es, render)[i] == Format(op, render(es[i]))
  {
    RenderedAt(es, Formatter(op, render), i);
  }

  /** `fmt_all` writes what `Delimited` writes with an empty string as the delimiter. */
  lemma FmtAllIsDelimitedByNothing(parts: seq<string>)
    ensures Concatenation(parts) == Joined(parts, Text(Str("")))
  {
    JoinedWithoutDelimiter(parts);
  }

  /** A delimited sequence of n elements carries n - 1 delimiters, none before the first
      element and none after the last. */
  lemma DelimitedShape(parts: seq<string>, delimiter: Token)
    requires parts != []
    ensures Joined(parts, Text(delimiter)) == parts[0] + Concatenation(Prefixed(Text(delimiter), parts[1..]))
    ensures |Joined(parts, Text(delimiter))| == |Concatenation(parts)| + (|parts| - 1) * |Text(delimiter)|
  {
    JoinedIsFirstThenPrefixedRest(parts, Text(delimiter));
    JoinedLength(parts, Text(delimiter));
  }

  /** Two or more elements: the first, then every later one after a comma with no space,
      all inside one pair of parentheses. */
  lemma ValueOrTupleMany(parts: seq<string>)
    requires |parts| >= 2
    ensures ValueOrTuple(parts) == "(" + (parts[0] + Concatenation(Prefixed(",", parts[1..]))) + ")"
  {
    JoinedIsFirstThenPrefixedRest(parts, ",");
  }

  /** Only a lone element is written without parentheses. */
  lemma ValueOrTupleParenthesized(parts: seq<string>)
    requires |parts| != 1
    ensures |ValueOrTuple(parts)| >= 2
    ensures ValueOrTuple(parts)[0] == '(' && ValueOrTuple(parts)[|ValueOrTuple(parts)| - 1] == ')'
  {
  }

  /** `fmt_all`: the operation applied to every element in order, nothing between. */
  method FmtAll<T>(op: FormatOp, es: seq<T>, render: T -> string, w: Writer)
    requires w.Valid()
    modifies w.Target()
    ensures w.Valid() && w.Written() == old(w.Written()) + Concatenation(FormattedAll(op, es, render))
  {
    ghost var f := Formatter(op, render);
    var i := 0;
    while i < |es|
      invariant 0 <= i <= |es|
      invariant w.Valid() && w.Written() == old(w.Written()) + Concatenation(Rendered(es[..i], f))
    {
      FormatInto(op, es[i], render, w);
      FormatterApply(op, render, es[i]);
      ConcatenatedRenderedStep(old(w.Written()), es, i, f);
      i := i + 1;
    }
    TakeAll(es);
  }

  /** `fmt_index`: the operation applied to element `index` alone; a missing index is a
      panic in the source, so it is the caller's obligation here. */
  method FmtIndex<T>(op: FormatOp, es: seq<T>, render: T -> string, w: Writer, index: nat)
    requires index < |es| && w.Valid()
    modifies w.Target()
    ensures w.Valid() && w.Written() == old(w.Written()) + Format(op, render(es[index]))
  {
    FormatInto(op, es[index], render, w);
  }

  /** `Display` of `Delimited`: nothing for an empty slice, otherwise the first element
      and then the delimiter and the next element, for every later element. */
  method WriteDelimited<T>(op: FormatOp, es: seq<T>, render: T -> string, delimiter: Token, w: Writer)
    requires w.Valid()
    modifies w.Target()
    ensures w.Valid() && w.Written() == old(w.Written()) + Joined(FormattedAll(op, es, render), Text(delimiter))
  {
    ghost var f := Formatter(op, render);
    if es != [] {
      FormatInto(op, es[0], render, w);
      FormatterApply(op, render, es[0]);
      JoinedRenderedFirst(old(w.Written()), es, f, Text(delimiter));
      var i := 1;
      while i < |es|
        invariant 1 <= i <= |es|
        invariant w.Valid() && w.Written() == old(w.Written()) + Joined(Rendered(es[..i], f), Text(delimiter))
      {
        WriteToken(w, delimiter);
        FormatInto(op, es[i], render, w);
        FormatterApply(op, render, es[i]);
        JoinedRenderedStep(old(w.Written()), es, i, f, Text(delimiter));
        i := i + 1;
      }
      TakeAll(es);
    }
  }

  /** `Display` of `ValueOrTuple`. */
  method WriteValueOrTuple<T>(op: FormatOp, es: seq<T>, render: T -> string, w: Writer)
    requires w.Valid()
    modifies w.Target()
    ensures w.Valid() && w.Written() == old(w.Written()) + ValueOrTuple(FormattedAll(op, es, render))
  {
    var size := |es|;
    if size == 0 {
      WriteStr(w, "()");
    } else if size == 1 {
      FmtIndex(op, es, render, w, 0);
      FormattedAllAt(op, es, render, 0);
    } else {
      WriteChar(w, '(');
      WriteCommaSeparated(op, es, render, w);
      WriteChar(w, ')');
      AppendAssoc(old(w.Written()), "(", Joined(FormattedAll(op, es, render), ","), ")");
    }
  }

  /** The loop of `ValueOrTuple` between its parentheses: `fmt_index` of every element,
      a comma before each but the first. */
  method WriteCommaSeparated<T>(op: FormatOp, es: seq<T>, render: T -> string, w: Writer)
    requires es != [] && w.Valid()
    modifies w.Target()
    ensures w.Valid() && w.Written() == old(w.Written()) + Joined(FormattedAll(op, es, render), ",")
  {
    ghost var f := Formatter(op, render);
    FmtIndex(op, es, render, w, 0);
    FormatterApply(op, render, es[0]);
    JoinedRenderedFirst(old(w.Written()), es, f, ",");
    var i := 1;
    while i < |es|
      invariant 1 <= i <= |es|
      invariant w.Valid() && w.Written() == old(w.Written()) + Joined(Rendered(es[..i], f), ",")
    {
      WriteChar(w, ',');
      FmtIndex(op, es, render, w, i);
      FormatterApply(op, render, es[i]);
      JoinedRenderedStep(old(w.Written()), es, i, f, ",");
      i := i + 1;
    }
    TakeAll(es);
  }
}
