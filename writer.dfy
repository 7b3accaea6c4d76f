/** The sequence writers of src/writer.rs: `CFormatEach` (a slice and one `Affixes`
    applied to every element), `CDelimited` (the same with an optional delimiter token
    strictly between neighbours), `ValueOrTuple` (a lone element bare, anything else in
    parentheses) and the cursor `FormattedIter`, which formats one element per call. */
module Writers {
  import opened Optional
  import opened Sink
  import opened Tokens
  import opened Layout
  import opened CFormatOp
  import opened CFormatter
  import FmtWrite

  // ---------------------------------------------------------------------------------
  // The texts

  /** What `CFormatEach` writes: every element under `op`, back to back. */
  function EachText<T>(es: seq<T>, op: FormatOp, render: T -> string): string
  {
    Concatenation(FormattedAll(op, es, render))
  }

  /** What `CDelimited::apply` writes: every element under `op`, with the delimiter's text
      (nothing, when there is none) strictly between neighbours. */
  function DelimitedText<T>(es: seq<T>, op: FormatOp, delimiter: Option<Token>, render: T -> string): string
  {
    Joined(FormattedAll(op, es, render), DelimiterText(delimiter))
  }

  /** What `ValueOrTuple::cwrite` writes: a lone element as it is, without its
      operation; otherwise the formatted elements in parentheses. */
  function ValueOrTupleText<T>(es: seq<T>, op: FormatOp, render: T -> string): string
  {
    if |es| == 1 then render(es[0]) else "(" + EachText(es, op, render) + ")"
  }

  // ---------------------------------------------------------------------------------
  // Properties of the texts

  /** Without a delimiter, a delimited sequence is the plain sequence. */
  lemma DelimitedWithoutDelimiter<T>(es: seq<T>, op: FormatOp, render: T -> string)
    ensures DelimitedText(es, op, None, render) == EachText(es, op, render)
  {
    JoinedWithoutDelimiter(FormattedAll(op, es, render));
  }

  /** An empty slice writes nothing, and n elements carry n - 1 delimiters. */
  lemma DelimitedLength<T>(es: seq<T>, op: FormatOp, delimiter: Option<Token>, render: T -> string)
    ensures es == [] ==> DelimitedText(es, op, delimiter, render) == ""
    ensures es != [] ==> |DelimitedText(es, op, delimiter, render)|
                         == |EachText(es, op, render)| + (|es| - 1) * |DelimiterText(delimiter)|
  {
    if es != [] {
      JoinedLength(FormattedAll(op, es, render), DelimiterText(delimiter));
    }
  }

  /** A delimited sequence starts with its first element and puts the delimiter in front
      of every later one. */
  lemma DelimitedShape<T>(es: seq<T>, op: FormatOp, delimiter: Option<Token>, render: T -> string)
    requires es != []
    ensures DelimitedText(es, op, delimiter, render)
         == Format(op, render(es[0]))
            + Concatenation(Prefixed(DelimiterText(delimiter), FormattedAll(op, es, render)[1..]))
  {
    JoinedIsFirstThenPrefixedRest(FormattedAll(op, es, render), DelimiterText(delimiter));
    FormattedAllAt(op, es, render, 0);
  }

  /** One more prefix is written before everything attached so far. */
  lemma AffixesPrefixPush(prefixes: seq<Token>, suffixes: seq<Token>, t: Token, text: string)
    ensures Format(Affixes(prefixes + [t], suffixes), text) == Text(t) + Format(Affixes(prefixes, suffixes), text)
  {
    ConcatRevPush(prefixes, t);
    AppendAssoc(Text(t), ConcatRev(prefixes), text, Concat(suffixes));
  }

  /** One more suffix is written after everything attached so far. */
  lemma AffixesSuffixPush(prefixes: seq<Token>, suffixes: seq<Token>, t: Token, text: string)
    ensures Format(Affixes(prefixes, suffixes + [t]), text) == Format(Affixes(prefixes, suffixes), text) + Text(t)
  {
    ConcatAppend(suffixes, [t]);
    SingleToken(t);
    AppendAssoc(ConcatRev(prefixes) + text, Concat(suffixes), Text(t), "");
  }

  /** A token attached as a prefix goes in front of every element, not once in front of
      the sequence. */
  lemma PrefixReachesEveryElement<T>(prefixes: seq<Token>, suffixes: seq<Token>, t: Token, es: seq<T>, render: T -> string)
    ensures FormattedAll(Affixes(prefixes + [t], suffixes), es, render)
         == Prefixed(Text(t), FormattedAll(Affixes(prefixes, suffixes), es, render))
  {
    var before := FormattedAll(Affixes(prefixes, suffixes), es, render);
    var after := FormattedAll(Affixes(prefixes + [t], suffixes), es, render);
    forall i | 0 <= i < |es|
      ensures after[i] == Text(t) + before[i]
    {
      FormattedAllAt(Affixes(prefixes, suffixes), es, render, i);
      FormattedAllAt(Affixes(prefixes + [t], suffixes), es, render, i);
      AffixesPrefixPush(prefixes, suffixes, t, render(es[i]));
    }
  }

  /** A token attached as a suffix goes after every element, not once after the
      sequence. */
  lemma SuffixReachesEveryElement<T>(prefixes: seq<Token>, suffixes: seq<Token>, t: Token, es: seq<T>, render: T -> string)
    ensures |FormattedAll(Affixes(prefixes, suffixes + [t]), es, render)| == |es|
    ensures forall i :: 0 <= i < |es| ==>
      FormattedAll(Affixes(prefixes, suffixes + [t]), es, render)[i]
      == FormattedAll(Affixes(prefixes, suffixes), es, render)[i] + Text(t)
  {
    forall i | 0 <= i < |es|
      ensures FormattedAll(Affixes(prefixes, suffixes + [t]), es, render)[i]
           == FormattedAll(Affixes(prefixes, suffixes), es, render)[i] + Text(t)
    {
      FormattedAllAt(Affixes(prefixes, suffixes), es, render, i);
      FormattedAllAt(Affixes(prefixes, suffixes + [t]), es, render, i);
      AffixesSuffixPush(prefixes, suffixes, t, render(es[i]));
    }
  }

  /** A lone element is written bare: whatever the operation, only its own text. */
  lemma ValueOrTupleSingle<T>(e: T, op: FormatOp, render: T -> string)
    ensures ValueOrTupleText([e], op, render) == render(e)
  {
  }

  /** No element gives the unit value `()`, and two or more are parenthesized. */
  lemma ValueOrTupleOther<T>(es: seq<T>, op: FormatOp, render: T -> string)
    requires |es| != 1
    ensures es == [] ==> ValueOrTupleText(es, op, render) == "()"
    ensures |ValueOrTupleText(es, op, render)| >= 2
    ensures ValueOrTupleText(es, op, render)[0] == '('
    ensures ValueOrTupleText(es, op, render)[|ValueOrTupleText(es, op, render)| - 1] == ')'
  {
  }

  /** This `ValueOrTuple` and the one of src/cformat/formatter.rs agree on no element but
      not on one: the formatter applies the operation to a lone element, this one does
      not. */
  lemma ValueOrTuplesCompared<T>(e: T, op: FormatOp, render: T -> string)
    ensures ValueOrTupleText([], op, render) == CFormatter.ValueOrTuple(FormattedAll(op, [], render))
    ensures CFormatter.ValueOrTuple(FormattedAll(op, [e], render)) == Format(op, render(e))
    ensures ValueOrTupleText([e], op, render) == render(e)
  {
    FormattedAllAt(op, [e], render, 0);
  }

  // ---------------------------------------------------------------------------------
  // The writers

  /** The loop of `CDelimited::apply`: the first element, then for each later element
      the delimiter (when there is one) and the element. */
  method WriteDelimitedEach<T>(es: seq<T>, op: FormatOp, delimiter: Option<Token>, render: T -> string, w: Writer)
    requires w.Valid()
    modifies w.Target()
    ensures w.Valid() && w.Written() == old(w.Written()) + DelimitedText(es, op, delimiter, render)
  {
    ghost var f := Formatter(op, render);
    ghost var d := DelimiterText(delimiter);
    if es != [] {
      FormatInto(op, es[0], render, w);
      FormatterApply(op, render, es[0]);
      JoinedRenderedFirst(old(w.Written()), es, f, d);
      var i := 1;
      while i < |es|
        invariant 1 <= i <= |es|
        invariant w.Valid() && w.Written() == old(w.Written()) + Joined(Rendered(es[..i], f), d)
      {
        WriteDelimiter(w, delimiter);
        FormatInto(op, es[i], render, w);
        FormatterApply(op, render, es[i]);
        JoinedRenderedStep(old(w.Written()), es, i, f, d);
        i := i + 1;
      }
      TakeAll(es);
    }
  }

  /** A slice with one `Affixes` for all its elements. */
  class CFormatEach<T> {
    const elements: seq<T>
    const ops: FmtWrite.ElementOps

    /** `CFormatEach::new`. */
    constructor (elements: seq<T>, ops: FmtWrite.ElementOps)
      ensures this.elements == elements && this.ops == ops
    {
      this.elements := elements;
      this.ops := ops;
    }

    /** `CFormatEach::new_empty`: no affixes. */
    constructor Empty(elements: seq<T>)
      ensures this.elements == elements && fresh(ops) && ops.prefixes == [] && ops.suffixes == []
    {
      this.elements := elements;
      this.ops := new FmtWrite.ElementOps();
    }

    function Rendering(render: T -> string): string
      reads this, ops
    {
      EachText(elements, AsFormatOp(ops), render)
    }

    /** `prefix_token`: onto the per-element prefixes. */
    method PrefixToken(t: Token)
      modifies ops
      ensures ops.prefixes == old(ops.prefixes) + [t] && ops.suffixes == old(ops.suffixes)
    {
      ops.PrefixToken(t);
    }

    /** `suffix_token`: onto the per-element suffixes. */
    method SuffixToken(t: Token)
      modifies ops
      ensures ops.suffixes == old(ops.suffixes) + [t] && ops.prefixes == old(ops.prefixes)
    {
      ops.SuffixToken(t);
    }

    /** `apply`: the operation on every element in turn. */
    method Apply(render: T -> string, w: Writer)
      requires w.Valid()
      modifies w.Target()
      ensures w.Valid() && w.Written() == old(w.Written()) + Rendering(render)
    {
      FmtAll(AsFormatOp(ops), elements, render, w);
    }
  }

  /** A slice with one `Affixes` for all its elements and an optional delimiter. */
  class CDelimited<T> {
    const elementsWriter: CFormatEach<T>
    const delimiter: Option<Token>

    /** `CDelimited::new`. */
    constructor (elements: seq<T>, elementOps: FmtWrite.ElementOps, delimiter: Option<Token>)
      ensures fresh(elementsWriter) && elementsWriter.elements == elements
      ensures elementsWriter.ops == elementOps && this.delimiter == delimiter
    {
      elementsWriter := new CFormatEach(elements, elementOps);
      this.delimiter := delimiter;
    }

    function Rendering(render: T -> string): string
      reads this, elementsWriter, elementsWriter.ops
    {
      DelimitedText(elementsWriter.elements, AsFormatOp(elementsWriter.ops), delimiter, render)
    }

    /** `prefix_token` on a `CDelimited` reaches the per-element prefixes; the sequence as
        a whole has no affixes of its own (see `PrefixReachesEveryElement`). */
    method PrefixToken(t: Token)
      modifies elementsWriter.ops
      ensures elementsWriter.ops.prefixes == old(elementsWriter.ops.prefixes) + [t]
      ensures elementsWriter.ops.suffixes == old(elementsWriter.ops.suffixes)
    {
      elementsWriter.PrefixToken(t);
    }

    /** `suffix_token` on a `CDelimited` reaches the per-element suffixes. */
    method SuffixToken(t: Token)
      modifies elementsWriter.ops
      ensures elementsWriter.ops.suffixes == old(elementsWriter.ops.suffixes) + [t]
      ensures elementsWriter.ops.prefixes == old(elementsWriter.ops.prefixes)
    {
      elementsWriter.SuffixToken(t);
    }

    /** `apply`. */
    method Apply(render: T -> string, w: Writer)
      requires w.Valid()
      modifies w.Target()
      ensures w.Valid() && w.Written() == old(w.Written()) + Rendering(render)
    {
      WriteDelimitedEach(elementsWriter.elements, AsFormatOp(elementsWriter.ops), delimiter, render, w);
    }
  }

  /** A slice shown as a value when it has exactly one element and as a tuple
      otherwise. */
  class ValueOrTuple<T> {
    const elements: CFormatEach<T>

    constructor (elements: CFormatEach<T>)
      ensures this.elements == elements
    {
      this.elements := elements;
    }

    function Rendering(render: T -> string): string
      reads this, elements, elements.ops
    {
      ValueOrTupleText(elements.elements, AsFormatOp(elements.ops), render)
    }

    /** `cwrite`: the lone element's own `cwrite`, or `(`, `apply`, `)`. */
    method Cwrite(render: T -> string, w: Writer)
      requires w.Valid()
      modifies w.Target()
      ensures w.Valid() && w.Written() == old(w.Written()) + Rendering(render)
    {
      if |elements.elements| == 1 {
        WriteStr(w, render(elements.elements[0]));
      } else {
        WriteChar(w, '(');
        elements.Apply(render, w);
        WriteChar(w, ')');
        AppendAssoc(old(w.Written()), "(", elements.Rendering(render), ")");
      }
    }
  }

  /** A cursor over a slice: each `next` formats the element under the cursor and moves
      on, until the slice is used up. */
  class FormattedIter<T> {
    const elements: seq<T>
    const op: FormatOp
    var index: nat

    /** `FormatMany::iter`: the cursor starts at the first element. */
    constructor (elements: seq<T>, op: FormatOp)
      ensures this.elements == elements && this.op == op && index == 0
      ensures Remaining() == |elements|
    {
      this.elements := elements;
      this.op := op;
      index := 0;
    }

    /** `remaining`: the elements not yet formatted, never below zero. */
    function Remaining(): (r: nat)
      reads this
      ensures r == 0 <==> index >= |elements|
      ensures index <= |elements| ==> r + index == |elements|
    {
      if index >= |elements| then 0 else |elements| - index
    }

    /** `next`: nothing once the slice is used up; otherwise the element under the cursor,
        formatted, and the cursor one further on. */
    method Next(render: T -> string, w: Writer) returns (r: Option<FmtResult>)
      requires w.Valid()
      modifies this, w.Target()
      ensures w.Valid()
      ensures r.None? <==> old(index) >= |elements|
      ensures r.None? ==> index == old(index) && w.Written() == old(w.Written())
      ensures r.Some? ==> r.value == Ok && index == old(index) + 1
      ensures r.Some? ==> w.Written() == old(w.Written()) + Format(op, render(elements[old(index)]))
      ensures r.Some? ==> Remaining() == old(Remaining()) - 1
      ensures old(index) <= |elements| ==> index <= |elements|
    {
      if index >= |elements| {
        return None;
      }
      FormatInto(op, elements[index], render, w);
      index := index + 1;
      r := Some(Ok);
    }
  }
}
