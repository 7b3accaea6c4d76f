/** The affix builders of src/fmt/write.rs: `ElementOps` (prefix and suffix token lists
    attached to one value), `SliceOps` (per-element lists, outer lists and an optional
    delimiter for a sequence) and the writers that bind them to a value or a slice.
    `ElementOps` is also the `Affixes` struct of src/cformat/op.rs, which has the same
    fields, builders and output. */
module FmtWrite {
  import opened Optional
  import opened Sink
  import opened Tokens
  import opened Layout

  class ElementOps {
    var prefixes: seq<Token>
    var suffixes: seq<Token>

    /** `ElementOps::new` / `Affixes::new`: nothing attached. */
    constructor ()
      ensures prefixes == [] && suffixes == []
    {
      prefixes := [];
      suffixes := [];
    }

    /** The text `apply` writes for a value whose own text is `text`. */
    function Rendering(text: string): string
      reads this
    {
      Affixed(prefixes, suffixes, text)
    }

    method PrefixToken(t: Token)
      modifies this
      ensures prefixes == old(prefixes) + [t] && suffixes == old(suffixes)
    {
      prefixes := prefixes + [t];
    }

    method SuffixToken(t: Token)
      modifies this
      ensures suffixes == old(suffixes) + [t] && prefixes == old(prefixes)
    {
      suffixes := suffixes + [t];
    }

    method Prefix(l: Literal)
      modifies this
      ensures prefixes == old(prefixes) + [ToToken(l)] && suffixes == old(suffixes)
      ensures forall text :: Rendering(text) == LiteralText(l) + old(Rendering(text))
    {
      PrefixToken(ToToken(l));
      forall text ensures Rendering(text) == LiteralText(l) + old(Rendering(text)) {
        ConcatRevPush(old(prefixes), ToToken(l));
      }
    }

    method Suffix(l: Literal)
      modifies this
      ensures suffixes == old(suffixes) + [ToToken(l)] && prefixes == old(prefixes)
      ensures forall text :: Rendering(text) == old(Rendering(text)) + LiteralText(l)
    {
      SuffixToken(ToToken(l));
      forall text ensures Rendering(text) == old(Rendering(text)) + LiteralText(l) {
        assert suffixes[..|suffixes| - 1] == old(suffixes);
      }
    }

    /** `wrap`: a prefix and a suffix, both outside everything attached before. */
    method Wrap(open: Literal, close: Literal)
      modifies this
      ensures prefixes == old(prefixes) + [ToToken(open)]
      ensures suffixes == old(suffixes) + [ToToken(close)]
      ensures forall text :: Rendering(text) == LiteralText(open) + old(Rendering(text)) + LiteralText(close)
    {
      Prefix(open);
      Suffix(close);
    }

    /** `enclose`: wrap with a bracket and its closing partner. */
    method Enclose(c: char)
      modifies this
      ensures prefixes == old(prefixes) + [Char(c)]
      ensures suffixes == old(suffixes) + [Char(GetEnclosers(c).1)]
      ensures forall text :: Rendering(text) == [c] + old(Rendering(text)) + [GetEnclosers(c).1]
    {
      var (open, close) := GetEnclosers(c);
      Wrap(CharLiteral(open), CharLiteral(close));
    }

    method ApplyPrefixes(w: Writer)
      requires w.Valid()
      modifies w.Target()
      ensures w.Valid() && w.Written() == old(w.Written()) + ConcatRev(prefixes)
    {
      WriteTokensRev(w, prefixes);
    }

    method ApplySuffixes(w: Writer)
      requires w.Valid()
      modifies w.Target()
      ensures w.Valid() && w.Written() == old(w.Written()) + Concat(suffixes)
    {
      WriteTokens(w, suffixes);
    }

    /** `apply`: prefixes from the last attached to the first, the value, then the
        suffixes in attachment order. */
    method Apply<T>(obj: T, render: T -> string, w: Writer)
      requires w.Valid()
      modifies w.Target()
      ensures w.Valid() && w.Written() == old(w.Written()) + Rendering(render(obj))
    {
      ApplyPrefixes(w);
      WriteStr(w, render(obj));
      ApplySuffixes(w);
      AffixedAfter(old(w.Written()), prefixes, suffixes, render(obj));
    }

    /** `ElementOps::join`: these lists become the per-element lists of a sequence with
        fresh, empty outer lists. */
    method Join(delimiter: Option<Literal>) returns (ops: SliceOps)
      ensures fresh(ops) && fresh(ops.sliceOps) && ops.Valid()
      ensures ops.elementOps == this && ops.delimiter == MaybeToken(delimiter)
      ensures ops.sliceOps.prefixes == [] && ops.sliceOps.suffixes == []
    {
      var outer := new ElementOps();
      ops := new SliceOps(this, outer, delimiter);
    }
  }

  class SliceOps {
    const elementOps: ElementOps
    const sliceOps: ElementOps
    const delimiter: Option<Token>

    ghost predicate Valid()
      reads this
    {
      elementOps != sliceOps
    }

    /** `SliceOps::new`. */
    constructor (elementOps: ElementOps, sliceOps: ElementOps, delimiter: Option<Literal>)
      requires elementOps != sliceOps
      ensures Valid() && this.elementOps == elementOps && this.sliceOps == sliceOps
      ensures this.delimiter == MaybeToken(delimiter)
    {
      this.elementOps := elementOps;
      this.sliceOps := sliceOps;
      this.delimiter := MaybeToken(delimiter);
    }

    /** `SliceOps::default`: no affixes anywhere and no delimiter. */
    constructor Default()
      ensures Valid() && fresh(elementOps) && fresh(sliceOps) && delimiter.None?
      ensures elementOps.prefixes == [] && elementOps.suffixes == []
      ensures sliceOps.prefixes == [] && sliceOps.suffixes == []
    {
      elementOps := new ElementOps();
      sliceOps := new ElementOps();
      delimiter := None;
    }

    /** The text `apply` writes for a sequence whose elements render as `parts`: the outer
        affixes once around the affixed elements joined by the delimiter. */
    function Rendering(parts: seq<string>): (r: string)
      reads this, elementOps, sliceOps
      ensures parts == [] ==> r == ConcatRev(sliceOps.prefixes) + Concat(sliceOps.suffixes)
    {
      Affixed(sliceOps.prefixes, sliceOps.suffixes,
        Joined(AffixedAll(elementOps.prefixes, elementOps.suffixes, parts), DelimiterText(delimiter)))
    }

    /** Builders on a `SliceOps` attach to the outer lists; the element lists stay as they are. */
    method PrefixToken(t: Token)
      requires Valid()
      modifies sliceOps
      ensures sliceOps.prefixes == old(sliceOps.prefixes) + [t]
      ensures sliceOps.suffixes == old(sliceOps.suffixes)
      ensures elementOps.prefixes == old(elementOps.prefixes)
      ensures elementOps.suffixes == old(elementOps.suffixes)
    {
      sliceOps.PrefixToken(t);
    }

    method SuffixToken(t: Token)
      requires Valid()
      modifies sliceOps
      ensures sliceOps.suffixes == old(sliceOps.suffixes) + [t]
      ensures sliceOps.prefixes == old(sliceOps.prefixes)
      ensures elementOps.prefixes == old(elementOps.prefixes)
      ensures elementOps.suffixes == old(elementOps.suffixes)
    {
      sliceOps.SuffixToken(t);
    }

    /** `wrap` on a sequence: the pair goes once around the whole sequence. */
    method Wrap(open: Literal, close: Literal)
      requires Valid()
      modifies sliceOps
      ensures elementOps.prefixes == old(elementOps.prefixes)
      ensures elementOps.suffixes == old(elementOps.suffixes)
      ensures forall parts :: Rendering(parts) == LiteralText(open) + old(Rendering(parts)) + LiteralText(close)
    {
      sliceOps.Wrap(open, close);
      forall parts ensures Rendering(parts) == LiteralText(open) + old(Rendering(parts)) + LiteralText(close) {
        var inner := Joined(AffixedAll(elementOps.prefixes, elementOps.suffixes, parts), DelimiterText(delimiter));
        assert sliceOps.Rendering(inner) == LiteralText(open) + old(sliceOps.Rendering(inner)) + LiteralText(close);
      }
    }

    /** `SliceOps::apply`: outer prefixes, the first element, then for every later
        element the delimiter (if any) and the element, and last the outer suffixes. */
    method Apply<T>(slice: seq<T>, render: T -> string, w: Writer)
      requires Valid() && w.Valid()
      modifies w.Target()
      ensures w.Valid() && w.Written() == old(w.Written()) + Rendering(Rendered(slice, render))
    {
      ghost var before := w.Written();
      ghost var inner := Joined(AffixedAll(elementOps.prefixes, elementOps.suffixes, Rendered(slice, render)), DelimiterText(delimiter));
      ghost var pre, suf := ConcatRev(sliceOps.prefixes), Concat(sliceOps.suffixes);
      sliceOps.ApplyPrefixes(w);
      assert w.Written() == before + pre;
      ApplyElements(slice, render, w);
      assert w.Written() == before + pre + inner;
      sliceOps.ApplySuffixes(w);
      AppendAssoc(before, pre, inner, suf);
    }

    /** The part of `apply` between the outer affixes. */
    method ApplyElements<T>(slice: seq<T>, render: T -> string, w: Writer)
      requires w.Valid()
      modifies w.Target()
      ensures w.Valid()
      ensures w.Written() == old(w.Written())
        + Joined(AffixedAll(elementOps.prefixes, elementOps.suffixes, Rendered(slice, render)), DelimiterText(delimiter))
    {
      ghost var ep, es := elementOps.prefixes, elementOps.suffixes;
      ghost var d := DelimiterText(delimiter);
      if |slice| > 0 {
        elementOps.Apply(slice[0], render, w);
        JoinedAffixedFirst(slice, render, ep, es, d);
        var i := 1;
        while i < |slice|
          invariant 1 <= i <= |slice|
          invariant w.Valid()
          invariant elementOps.prefixes == ep && elementOps.suffixes == es
          invariant w.Written() == old(w.Written()) + Joined(AffixedAll(ep, es, Rendered(slice[..i], render)), d)
        {
          ghost var done := Joined(AffixedAll(ep, es, Rendered(slice[..i], render)), d);
          ghost var next := Affixed(ep, es, render(slice[i]));
          WriteDelimiter(w, delimiter);
          elementOps.Apply(slice[i], render, w);
          AppendAssoc(old(w.Written()), done, d, next);
          JoinedAffixedStep(slice, i, render, ep, es, d);
          i := i + 1;
        }
        TakeAll(slice);
      }
    }
  }

  /** A value bound to its affix lists. */
  class ElementWriter<T> {
    const obj: T
    const ops: ElementOps

    /** `ElementWriter::new`. */
    constructor (obj: T, ops: ElementOps)
      ensures this.obj == obj && this.ops == ops
    {
      this.obj := obj;
      this.ops := ops;
    }

    /** `ElementWriter::new_empty`. */
    constructor Empty(obj: T)
      ensures this.obj == obj && fresh(ops) && ops.prefixes == [] && ops.suffixes == []
    {
      this.obj := obj;
      this.ops := new ElementOps();
    }

    method PrefixToken(t: Token)
      modifies ops
      ensures ops.prefixes == old(ops.prefixes) + [t] && ops.suffixes == old(ops.suffixes)
    {
      ops.PrefixToken(t);
    }

    method SuffixToken(t: Token)
      modifies ops
      ensures ops.suffixes == old(ops.suffixes) + [t] && ops.prefixes == old(ops.prefixes)
    {
      ops.SuffixToken(t);
    }

    method Apply(render: T -> string, w: Writer)
      requires w.Valid()
      modifies w.Target()
      ensures w.Valid() && w.Written() == old(w.Written()) + ops.Rendering(render(obj))
    {
      ops.Apply(obj, render, w);
    }

    /** `ElementWriter::to_string`: the same steps, into a fresh string. */
    method ToString(render: T -> string) returns (s: string)
      ensures s == ops.Rendering(render(obj))
    {
      var buf := new StringSink();
      ops.Apply(obj, render, Buffer(buf));
      s := buf.text;
    }
  }

  /** A slice bound to its sequence affixes. */
  class SliceWriter<U> {
    const slice: seq<U>
    const ops: SliceOps

    /** `SliceWriter::new`. */
    constructor (slice: seq<U>, ops: SliceOps)
      ensures this.slice == slice && this.ops == ops
    {
      this.slice := slice;
      this.ops := ops;
    }

    /** Builders on a `SliceWriter` reach the outer lists of its `SliceOps`. */
    method PrefixToken(t: Token)
      requires ops.Valid()
      modifies ops.sliceOps
      ensures ops.sliceOps.prefixes == old(ops.sliceOps.prefixes) + [t]
      ensures ops.sliceOps.suffixes == old(ops.sliceOps.suffixes)
      ensures ops.elementOps.prefixes == old(ops.elementOps.prefixes)
      ensures ops.elementOps.suffixes == old(ops.elementOps.suffixes)
    {
      ops.PrefixToken(t);
    }

    method SuffixToken(t: Token)
      requires ops.Valid()
      modifies ops.sliceOps
      ensures ops.sliceOps.suffixes == old(ops.sliceOps.suffixes) + [t]
      ensures ops.sliceOps.prefixes == old(ops.sliceOps.prefixes)
      ensures ops.elementOps.prefixes == old(ops.elementOps.prefixes)
      ensures ops.elementOps.suffixes == old(ops.elementOps.suffixes)
    {
      ops.SuffixToken(t);
    }

    method Apply(render: U -> string, w: Writer)
      requires ops.Valid() && w.Valid()
      modifies w.Target()
      ensures w.Valid() && w.Written() == old(w.Written()) + ops.Rendering(Rendered(slice, render))
    {
      ops.Apply(slice, render, w);
    }

    method Len() returns (n: nat)
      ensures n == |slice|
    {
      n := |slice|;
    }
  }

  /** `ElementWriter::join` on a writer bound to a slice: its lists become the
      per-element lists, the outer lists start empty. */
  method Join<U>(ew: ElementWriter<seq<U>>, delimiter: Option<Literal>) returns (sw: SliceWriter<U>)
    ensures fresh(sw) && fresh(sw.ops) && fresh(sw.ops.sliceOps) && sw.ops.Valid()
    ensures sw.slice == ew.obj && sw.ops.elementOps == ew.ops
    ensures sw.ops.delimiter == MaybeToken(delimiter)
    ensures sw.ops.sliceOps.prefixes == [] && sw.ops.sliceOps.suffixes == []
  {
    var outer := new ElementOps();
    var ops := new SliceOps(ew.ops, outer, delimiter);
    sw := new SliceWriter(ew.obj, ops);
  }

  /** Without affixes, a joined sequence is its elements with the delimiter strictly
      between them. */
  lemma {:induction false} PlainAffixes(parts: seq<string>)
    ensures AffixedAll([], [], parts) == parts
  {
    if parts != [] {
      var last := parts[|parts| - 1];
      PlainAffixes(parts[..|parts| - 1]);
      assert Affixed([], [], last) == "" + last + "";
      assert "" + last + "" == last;
      assert parts == parts[..|parts| - 1] + [last];
    }
  }
}
