/** The `CairoWrite` and `CairoWriteSlice` combinators of src/fmt/cairo_write.rs: an
    element with a character or string before or after it, and a slice of elements laid
    out back to back, with a delimiter, with a terminator, as a comma-separated list, as a
    block of lines, as a tuple, an `array![..]` or a `[..].span()`. Each writer is proved
    to append exactly the text of a layout function, and the layouts' shapes are lemmas. */
module CairoWrite {
  import opened Sink
  import opened Tokens
  import opened Layout

  // ---------------------------------------------------------------------------------
  // Layouts

  /** `cwrite_csv`: comma-and-space separated. */
  function Csv(parts: seq<string>): string
  {
    Joined(parts, ", ")
  }

  /** `cwrite_block`: nothing for no elements, otherwise a newline and every element on a
      line of its own. */
  function Block(parts: seq<string>): string
  {
    if parts == [] then "" else "\n" + Terminated(parts, "\n")
  }

  /** `cwrite_fields`: like a block, with a comma ending every line. */
  function Fields(parts: seq<string>): string
  {
    if parts == [] then "" else "\n" + Terminated(parts, ",\n")
  }

  /** `cwrite_tuple`: parentheses around the list; a lone element keeps a trailing `, `. */
  function Tuple(parts: seq<string>): string
  {
    "(" + (if |parts| == 1 then parts[0] + ", " else Csv(parts)) + ")"
  }

  function Array(parts: seq<string>): string
  {
    "array![" + Csv(parts) + "]"
  }

  function Span(parts: seq<string>): string
  {
    "[" + Csv(parts) + "].span()"
  }

  // ---------------------------------------------------------------------------------
  // Properties of the layouts

  /** An empty block or field list writes nothing, so its braced form is `{}`. */
  lemma EmptyBlocks()
    ensures Block([]) == "" && Fields([]) == ""
    ensures "{" + Block([]) + "}" == "{}"
  {
  }

  /** A non-empty block: a newline, the elements separated by newlines, a final newline. */
  lemma BlockLines(parts: seq<string>)
    requires parts != []
    ensures Block(parts) == "\n" + Joined(parts, "\n") + "\n"
  {
    TerminatedIsJoinedThenTerminator(parts, "\n");
  }

  /** A non-empty field list: every field, including the last, is followed by `,\n`. */
  lemma FieldsLines(parts: seq<string>)
    requires parts != []
    ensures Fields(parts) == "\n" + Joined(parts, ",\n") + ",\n"
  {
    TerminatedIsJoinedThenTerminator(parts, ",\n");
  }

  /** A tuple of one element is `(x, )`, which no parenthesized expression reads as. */
  lemma TupleSingle(p: string)
    ensures Tuple([p]) == "(" + p + ", )"
  {
  }

  /** Any other tuple is the parenthesized comma-separated list. */
  lemma TupleOther(parts: seq<string>)
    requires |parts| != 1
    ensures Tuple(parts) == "(" + Csv(parts) + ")"
  {
  }

  /** The empty array, span and tuple. */
  lemma EmptyCollections()
    ensures Array([]) == "array![]" && Span([]) == "[].span()" && Tuple([]) == "()"
  {
  }

  /** A worked list: three elements separated by `, `. */
  lemma CsvOfThree(a: string, b: string, c: string)
    ensures Csv([a, b, c]) == a + ", " + b + ", " + c
  {
    JoinedPush([a], b, ", ");
    JoinedPush([a, b], c, ", ");
    JoinedSingle(a, ", ");
    assert [a] + [b] == [a, b] && [a, b] + [c] == [a, b, c];
  }

  /** The comma-separated list of n elements is their total length plus 2(n - 1). */
  lemma CsvLength(parts: seq<string>)
    requires parts != []
    ensures |Csv(parts)| == |Concatenation(parts)| + 2 * (|parts| - 1)
  {
    JoinedLength(parts, ", ");
  }

  // ---------------------------------------------------------------------------------
  // Element writers (`CairoWrite`). An element's own `cwrite` appends `render(e)`.

  method Cwrite<T>(e: T, render: T -> string, w: Writer)
    requires w.Valid()
    modifies w.Target()
    ensures w.Valid() && w.Written() == old(w.Written()) + render(e)
  {
    WriteStr(w, render(e));
  }

  method CwriteSuffixedStr<T>(e: T, render: T -> string, w: Writer, suffix: string)
    requires w.Valid()
    modifies w.Target()
    ensures w.Valid() && w.Written() == old(w.Written()) + (render(e) + suffix)
  {
    Cwrite(e, render, w);
    WriteStr(w, suffix);
  }

  method CwritePrefixed<T>(e: T, render: T -> string, w: Writer, prefix: char)
    requires w.Valid()
    modifies w.Target()
    ensures w.Valid() && w.Written() == old(w.Written()) + ([prefix] + render(e))
  {
    WriteChar(w, prefix);
    Cwrite(e, render, w);
  }

  method CwritePrefixedStr<T>(e: T, render: T -> string, w: Writer, prefix: string)
    requires w.Valid()
    modifies w.Target()
    ensures w.Valid() && w.Written() == old(w.Written()) + (prefix + render(e))
  {
    WriteStr(w, prefix);
    Cwrite(e, render, w);
  }

  method CwriteSuffixed<T>(e: T, render: T -> string, w: Writer, suffix: char)
    requires w.Valid()
    modifies w.Target()
    ensures w.Valid() && w.Written() == old(w.Written()) + (render(e) + [suffix])
  {
    Cwrite(e, render, w);
    WriteChar(w, suffix);
  }

  method CwriteWrapped<T>(e: T, render: T -> string, w: Writer, prefix: char, suffix: char)
    requires w.Valid()
    modifies w.Target()
    ensures w.Valid() && w.Written() == old(w.Written()) + ([prefix] + render(e) + [suffix])
  {
    WriteChar(w, prefix);
    Cwrite(e, render, w);
    WriteChar(w, suffix);
    AppendAssoc(old(w.Written()), [prefix], render(e), [suffix]);
  }

  method CwriteWrappedStr<T>(e: T, render: T -> string, w: Writer, prefix: string, suffix: string)
    requires w.Valid()
    modifies w.Target()
    ensures w.Valid() && w.Written() == old(w.Written()) + (prefix + render(e) + suffix)
  {
    WriteStr(w, prefix);
    Cwrite(e, render, w);
    WriteStr(w, suffix);
    AppendAssoc(old(w.Written()), prefix, render(e), suffix);
  }

  method CwriteParenthesized<T>(e: T, render: T -> string, w: Writer)
    requires w.Valid()
    modifies w.Target()
    ensures w.Valid() && w.Written() == old(w.Written()) + ("(" + render(e) + ")")
  {
    CwriteWrapped(e, render, w, '(', ')');
  }

  method CwriteBraced<T>(e: T, render: T -> string, w: Writer)
    requires w.Valid()
    modifies w.Target()
    ensures w.Valid() && w.Written() == old(w.Written()) + ("{" + render(e) + "}")
  {
    CwriteWrapped(e, render, w, '{', '}');
  }

  method CwriteBracketed<T>(e: T, render: T -> string, w: Writer)
    requires w.Valid()
    modifies w.Target()
    ensures w.Valid() && w.Written() == old(w.Written()) + ("[" + render(e) + "]")
  {
    CwriteWrapped(e, render, w, '[', ']');
  }

  // ---------------------------------------------------------------------------------
  // Slice writers (`CairoWriteSlice`)

  /** The loop of `cwrite_join` and `cwrite_delimited`: the first element, then each
      later one with the delimiter token in front of it. */
  method WriteJoined<T>(es: seq<T>, render: T -> string, w: Writer, delimiter: Token)
    requires w.Valid()
    modifies w.Target()
    ensures w.Valid() && w.Written() == old(w.Written()) + Joined(Rendered(es, render), Text(delimiter))
  {
    if es != [] {
      Cwrite(es[0], render, w);
      JoinedRenderedFirst(old(w.Written()), es, render, Text(delimiter));
      var i := 1;
      while i < |es|
        invariant 1 <= i <= |es|
        invariant w.Valid() && w.Written() == old(w.Written()) + Joined(Rendered(es[..i], render), Text(delimiter))
      {
        WriteToken(w, delimiter);
        Cwrite(es[i], render, w);
        JoinedRenderedStep(old(w.Written()), es, i, render, Text(delimiter));
        i := i + 1;
      }
      TakeAll(es);
    }
  }

  /** The loop of `cwrite_terminated` and `cwrite_terminated_str`. */
  method WriteTerminated<T>(es: seq<T>, render: T -> string, w: Writer, terminator: Token)
    requires w.Valid()
    modifies w.Target()
    ensures w.Valid() && w.Written() == old(w.Written()) + Terminated(Rendered(es, render), Text(terminator))
  {
    var i := 0;
    while i < |es|
      invariant 0 <= i <= |es|
      invariant w.Valid() && w.Written() == old(w.Written()) + Terminated(Rendered(es[..i], render), Text(terminator))
    {
      Cwrite(es[i], render, w);
      WriteToken(w, terminator);
      TerminatedRenderedStep(old(w.Written()), es, i, render, Text(terminator));
      i := i + 1;
    }
    TakeAll(es);
  }

  method CwriteJoin<T>(es: seq<T>, render: T -> string, w: Writer, delimiter: string)
    requires w.Valid()
    modifies w.Target()
    ensures w.Valid() && w.Written() == old(w.Written()) + Joined(Rendered(es, render), delimiter)
  {
    WriteJoined(es, render, w, Str(delimiter));
  }

  method CwriteDelimited<T>(es: seq<T>, render: T -> string, w: Writer, delimiter: char)
    requires w.Valid()
    modifies w.Target()
    ensures w.Valid() && w.Written() == old(w.Written()) + Joined(Rendered(es, render), [delimiter])
  {
    WriteJoined(es, render, w, Char(delimiter));
  }

  method CwriteTerminated<T>(es: seq<T>, render: T -> string, w: Writer, terminator: char)
    requires w.Valid()
    modifies w.Target()
    ensures w.Valid() && w.Written() == old(w.Written()) + Terminated(Rendered(es, render), [terminator])
  {
    WriteTerminated(es, render, w, Char(terminator));
  }

  method CwriteTerminatedStr<T>(es: seq<T>, render: T -> string, w: Writer, terminator: string)
    requires w.Valid()
    modifies w.Target()
    ensures w.Valid() && w.Written() == old(w.Written()) + Terminated(Rendered(es, render), terminator)
  {
    WriteTerminated(es, render, w, Str(terminator));
  }

  method CwriteConcatenated<T>(es: seq<T>, render: T -> string, w: Writer)
    requires w.Valid()
    modifies w.Target()
    ensures w.Valid() && w.Written() == old(w.Written()) + Concatenation(Rendered(es, render))
  {
    var i := 0;
    while i < |es|
      invariant 0 <= i <= |es|
      invariant w.Valid() && w.Written() == old(w.Written()) + Concatenation(Rendered(es[..i], render))
    {
      Cwrite(es[i], render, w);
      ConcatenatedRenderedStep(old(w.Written()), es, i, render);
      i := i + 1;
    }
    TakeAll(es);
  }

  method CwriteConcatenatedWrapped<T>(es: seq<T>, render: T -> string, w: Writer, prefix: char, suffix: char)
    requires w.Valid()
    modifies w.Target()
    ensures w.Valid() && w.Written() == old(w.Written()) + ([prefix] + Concatenation(Rendered(es, render)) + [suffix])
  {
    WriteChar(w, prefix);
    CwriteConcatenated(es, render, w);
    WriteChar(w, suffix);
    AppendAssoc(old(w.Written()), [prefix], Concatenation(Rendered(es, render)), [suffix]);
  }

  method CwriteCsv<T>(es: seq<T>, render: T -> string, w: Writer)
    requires w.Valid()
    modifies w.Target()
    ensures w.Valid() && w.Written() == old(w.Written()) + Csv(Rendered(es, render))
  {
    CwriteJoin(es, render, w, ", ");
  }

  method CwriteBlock<T>(es: seq<T>, render: T -> string, w: Writer)
    requires w.Valid()
    modifies w.Target()
    ensures w.Valid() && w.Written() == old(w.Written()) + Block(Rendered(es, render))
  {
    if es != [] {
      WriteChar(w, '\n');
      CwriteTerminated(es, render, w, '\n');
      AppendAssoc3(old(w.Written()), "\n", Terminated(Rendered(es, render), "\n"));
    } else {
      assert old(w.Written()) + "" == old(w.Written());
    }
  }

  method CwriteBlockBraced<T>(es: seq<T>, render: T -> string, w: Writer)
    requires w.Valid()
    modifies w.Target()
    ensures w.Valid() && w.Written() == old(w.Written()) + ("{" + Block(Rendered(es, render)) + "}")
  {
    WriteChar(w, '{');
    CwriteBlock(es, render, w);
    WriteChar(w, '}');
    AppendAssoc(old(w.Written()), "{", Block(Rendered(es, render)), "}");
  }

  method CwriteTuple<T>(es: seq<T>, render: T -> string, w: Writer)
    requires w.Valid()
    modifies w.Target()
    ensures w.Valid() && w.Written() == old(w.Written()) + Tuple(Rendered(es, render))
  {
    ghost var parts := Rendered(es, render);
    WriteChar(w, '(');
    if |es| == 0 {
      assert Csv(parts) == "";
    } else if |es| == 1 {
      CwriteSuffixedStr(es[0], render, w, ", ");
    } else {
      CwriteJoin(es, render, w, ", ");
    }
    WriteChar(w, ')');
    AppendAssoc(old(w.Written()), "(", if |parts| == 1 then parts[0] + ", " else Csv(parts), ")");
  }

  method CwriteCsvWrapped<T>(es: seq<T>, render: T -> string, w: Writer, prefix: char, suffix: char)
    requires w.Valid()
    modifies w.Target()
    ensures w.Valid() && w.Written() == old(w.Written()) + ([prefix] + Csv(Rendered(es, render)) + [suffix])
  {
    WriteChar(w, prefix);
    CwriteCsv(es, render, w);
    WriteChar(w, suffix);
    AppendAssoc(old(w.Written()), [prefix], Csv(Rendered(es, render)), [suffix]);
  }

  method CwriteCsvWrappedStr<T>(es: seq<T>, render: T -> string, w: Writer, prefix: string, suffix: string)
    requires w.Valid()
    modifies w.Target()
    ensures w.Valid() && w.Written() == old(w.Written()) + (prefix + Csv(Rendered(es, render)) + suffix)
  {
    WriteStr(w, prefix);
    CwriteCsv(es, render, w);
    WriteStr(w, suffix);
    AppendAssoc(old(w.Written()), prefix, Csv(Rendered(es, render)), suffix);
  }

  method CwriteCsvBraced<T>(es: seq<T>, render: T -> string, w: Writer)
    requires w.Valid()
    modifies w.Target()
    ensures w.Valid() && w.Written() == old(w.Written()) + ("{" + Csv(Rendered(es, render)) + "}")
  {
    CwriteCsvWrapped(es, render, w, '{', '}');
  }

  method CwriteCsvParenthesized<T>(es: seq<T>, render: T -> string, w: Writer)
    requires w.Valid()
    modifies w.Target()
    ensures w.Valid() && w.Written() == old(w.Written()) + ("(" + Csv(Rendered(es, render)) + ")")
  {
    CwriteCsvWrapped(es, render, w, '(', ')');
  }

  method CwriteCsvBracketed<T>(es: seq<T>, render: T -> string, w: Writer)
    requires w.Valid()
    modifies w.Target()
    ensures w.Valid() && w.Written() == old(w.Written()) + ("[" + Csv(Rendered(es, render)) + "]")
  {
    CwriteCsvWrapped(es, render, w, '[', ']');
  }

  method CwriteCsvAngled<T>(es: seq<T>, render: T -> string, w: Writer)
    requires w.Valid()
    modifies w.Target()
    ensures w.Valid() && w.Written() == old(w.Written()) + ("<" + Csv(Rendered(es, render)) + ">")
  {
    CwriteCsvWrapped(es, render, w, '<', '>');
  }

  method CwriteCsvBarred<T>(es: seq<T>, render: T -> string, w: Writer)
    requires w.Valid()
    modifies w.Target()
    ensures w.Valid() && w.Written() == old(w.Written()) + ("|" + Csv(Rendered(es, render)) + "|")
  {
    CwriteCsvWrapped(es, render, w, '|', '|');
  }

  method CwriteArray<T>(es: seq<T>, render: T -> string, w: Writer)
    requires w.Valid()
    modifies w.Target()
    ensures w.Valid() && w.Written() == old(w.Written()) + Array(Rendered(es, render))
  {
    WriteStr(w, "array![");
    CwriteCsv(es, render, w);
    WriteChar(w, ']');
    AppendAssoc(old(w.Written()), "array![", Csv(Rendered(es, render)), "]");
  }

  method CwriteSpan<T>(es: seq<T>, render: T -> string, w: Writer)
    requires w.Valid()
    modifies w.Target()
    ensures w.Valid() && w.Written() == old(w.Written()) + Span(Rendered(es, render))
  {
    WriteChar(w, '[');
    CwriteCsv(es, render, w);
    WriteStr(w, "].span()");
    AppendAssoc(old(w.Written()), "[", Csv(Rendered(es, render)), "].span()");
  }

  method CwriteFields<T>(es: seq<T>, render: T -> string, w: Writer)
    requires w.Valid()
    modifies w.Target()
    ensures w.Valid() && w.Written() == old(w.Written()) + Fields(Rendered(es, render))
  {
    if es != [] {
      WriteChar(w, '\n');
      CwriteTerminatedStr(es, render, w, ",\n");
      AppendAssoc3(old(w.Written()), "\n", Terminated(Rendered(es, render), ",\n"));
    } else {
      assert old(w.Written()) + "" == old(w.Written());
    }
  }

  method CwriteFieldsBraced<T>(es: seq<T>, render: T -> string, w: Writer)
    requires w.Valid()
    modifies w.Target()
    ensures w.Valid() && w.Written() == old(w.Written()) + ("{" + Fields(Rendered(es, render)) + "}")
  {
    WriteChar(w, '{');
    CwriteFields(es, render, w);
    WriteChar(w, '}');
    AppendAssoc(old(w.Written()), "{", Fields(Rendered(es, render)), "}");
  }
}
