/** How a sequence of rendered elements is laid out: back to back, with a delimiter
    strictly between neighbours, or with a terminator after each one. These are the
    reference texts the sequence combinators of src/fmt/cairo_write.rs, src/fmt/write.rs,
    src/cformat/formatter.rs and src/writer.rs are proved to write. */
module Layout {
  import opened Tokens

  /** The renderings of `es`, in order. */
  function Rendered<T>(es: seq<T>, render: T -> string): (r: seq<string>)
    ensures |r| == |es|
  {
    if es == [] then [] else Rendered(es[..|es| - 1], render) + [render(es[|es| - 1])]
  }

  /** Each part with the same prefix and suffix token lists around it. */
  function AffixedAll(prefixes: seq<Token>, suffixes: seq<Token>, parts: seq<string>): (r: seq<string>)
    ensures |r| == |parts|
    ensures forall i :: 0 <= i < |parts| ==> r[i] == Affixed(prefixes, suffixes, parts[i])
  {
    if parts == [] then []
    else AffixedAll(prefixes, suffixes, parts[..|parts| - 1]) + [Affixed(prefixes, suffixes, parts[|parts| - 1])]
  }

  /** Each part with `d` in front of it. */
  function Prefixed(d: string, parts: seq<string>): (r: seq<string>)
    ensures |r| == |parts|
    ensures forall i :: 0 <= i < |parts| ==> r[i] == d + parts[i]
  {
    if parts == [] then [] else Prefixed(d, parts[..|parts| - 1]) + [d + parts[|parts| - 1]]
  }

  /** The parts back to back. */
  function Concatenation(parts: seq<string>): string
  {
    if parts == [] then "" else Concatenation(parts[..|parts| - 1]) + parts[|parts| - 1]
  }

  /** The parts with `delim` strictly between neighbours. */
  function Joined(parts: seq<string>, delim: string): string
  {
    if |parts| <= 1 then Concatenation(parts)
    else Joined(parts[..|parts| - 1], delim) + delim + parts[|parts| - 1]
  }

  /** The parts, each followed by `term`. */
  function Terminated(parts: seq<string>, term: string): string
  {
    if parts == [] then "" else Terminated(parts[..|parts| - 1], term) + parts[|parts| - 1] + term
  }

  lemma AppendAssoc(a: string, b: string, c: string, d: string)
    ensures a + b + c + d == a + (b + c + d)
  {
  }

  lemma AppendAssoc3(a: string, b: string, c: string)
    ensures a + b + c == a + (b + c)
  {
  }

  lemma ConcatenationPush(parts: seq<string>, p: string)
    ensures Concatenation(parts + [p]) == Concatenation(parts) + p
  {
    assert (parts + [p])[..|parts|] == parts;
  }

  /** Seen from the end of a loop body: one more part costs one more delimiter. */
  lemma JoinedPush(parts: seq<string>, p: string, delim: string)
    requires parts != []
    ensures Joined(parts + [p], delim) == Joined(parts, delim) + delim + p
  {
    assert (parts + [p])[..|parts|] == parts;
  }

  lemma JoinedSingle(p: string, delim: string)
    ensures Concatenation([p]) == p
    ensures Joined([p], delim) == p
  {
    assert [p][..0] == [];
    assert Concatenation([p]) == Concatenation([]) + p;
  }

  /** The delimited text is the first part, then every later part with the delimiter in
      front of it: the shape `cwrite_join` writes. So there is no leading delimiter,
      and (by the definition) no trailing one. */
  lemma {:induction false} JoinedIsFirstThenPrefixedRest(parts: seq<string>, delim: string)
    requires parts != []
    ensures Joined(parts, delim) == parts[0] + Concatenation(Prefixed(delim, parts[1..]))
    decreases |parts|
  {
    if |parts| == 1 {
      JoinedSingle(parts[0], delim);
      assert parts == [parts[0]] && parts[1..] == [];
    } else {
      var init := parts[..|parts| - 1];
      var last := parts[|parts| - 1];
      JoinedIsFirstThenPrefixedRest(init, delim);
      var rest := Prefixed(delim, init[1..]);
      assert parts[1..][..|parts[1..]| - 1] == init[1..];
      assert Prefixed(delim, parts[1..]) == rest + [delim + last];
      assert (rest + [delim + last])[..|rest|] == rest;
      assert Concatenation(rest + [delim + last]) == Concatenation(rest) + (delim + last);
      calc {
        Joined(parts, delim);
        Joined(init, delim) + delim + last;
        parts[0] + Concatenation(rest) + delim + last;
        parts[0] + Concatenation(Prefixed(delim, parts[1..]));
      }
    }
  }

  /** With an empty delimiter (the `()` delimiter of the source) joining is concatenation. */
  lemma {:induction false} JoinedWithoutDelimiter(parts: seq<string>)
    ensures Joined(parts, "") == Concatenation(parts)
  {
    if |parts| > 1 {
      JoinedWithoutDelimiter(parts[..|parts| - 1]);
    }
  }

  /** n parts carry exactly n - 1 delimiters. */
  lemma {:induction false} JoinedLength(parts: seq<string>, delim: string)
    requires parts != []
    ensures |Joined(parts, delim)| == |Concatenation(parts)| + (|parts| - 1) * |delim|
  {
    if |parts| > 1 {
      JoinedLength(parts[..|parts| - 1], delim);
    }
  }

  /** A non-empty terminated sequence is the delimited one plus a final terminator. */
  lemma {:induction false} TerminatedIsJoinedThenTerminator(parts: seq<string>, term: string)
    requires parts != []
    ensures Terminated(parts, term) == Joined(parts, term) + term
  {
    if |parts| == 1 {
      JoinedSingle(parts[0], term);
      assert parts[..0] == [] && parts == [parts[0]];
    } else {
      TerminatedIsJoinedThenTerminator(parts[..|parts| - 1], term);
    }
  }

  /** Every part of a terminated sequence costs its own length plus the terminator's. */
  lemma {:induction false} TerminatedLength(parts: seq<string>, term: string)
    ensures |Terminated(parts, term)| == |Concatenation(parts)| + |parts| * |term|
  {
    if parts != [] {
      TerminatedLength(parts[..|parts| - 1], term);
    }
  }

  /** Part `i` is the rendering of element `i`. */
  lemma {:induction false} RenderedAt<T>(es: seq<T>, render: T -> string, i: nat)
    requires i < |es|
    ensures Rendered(es, render)[i] == render(es[i])
    decreases |es|
  {
    if i < |es| - 1 {
      RenderedAt(es[..|es| - 1], render, i);
    }
  }

  lemma RenderedPush<T>(es: seq<T>, i: nat, render: T -> string)
    requires i < |es|
    ensures Rendered(es[..i + 1], render) == Rendered(es[..i], render) + [render(es[i])]
  {
    assert es[..i + 1][..i] == es[..i];
  }

  lemma AffixedAllPush(prefixes: seq<Token>, suffixes: seq<Token>, parts: seq<string>, p: string)
    ensures AffixedAll(prefixes, suffixes, parts + [p])
         == AffixedAll(prefixes, suffixes, parts) + [Affixed(prefixes, suffixes, p)]
  {
    assert (parts + [p])[..|parts|] == parts;
  }

  /** One more element of a delimited, affixed sequence: the delimiter, then the element. */
  lemma JoinedAffixedStep<T>(es: seq<T>, i: nat, render: T -> string,
                             prefixes: seq<Token>, suffixes: seq<Token>, delim: string)
    requires 1 <= i < |es|
    ensures Joined(AffixedAll(prefixes, suffixes, Rendered(es[..i + 1], render)), delim)
         == Joined(AffixedAll(prefixes, suffixes, Rendered(es[..i], render)), delim)
            + delim + Affixed(prefixes, suffixes, render(es[i]))
  {
    RenderedPush(es, i, render);
    AffixedAllPush(prefixes, suffixes, Rendered(es[..i], render), render(es[i]));
    JoinedPush(AffixedAll(prefixes, suffixes, Rendered(es[..i], render)), Affixed(prefixes, suffixes, render(es[i])), delim);
  }

  /** The first element of a delimited, affixed sequence stands alone. */
  lemma JoinedAffixedFirst<T>(es: seq<T>, render: T -> string,
                              prefixes: seq<Token>, suffixes: seq<Token>, delim: string)
    requires es != []
    ensures Joined(AffixedAll(prefixes, suffixes, Rendered(es[..1], render)), delim)
         == Affixed(prefixes, suffixes, render(es[0]))
  {
    assert es[..1] == [es[0]];
    assert Rendered(es[..1], render) == [render(es[0])];
    AffixedAllPush(prefixes, suffixes, [], render(es[0]));
    JoinedSingle(Affixed(prefixes, suffixes, render(es[0])), delim);
  }

  /** The first element of a delimited sequence, after whatever came before it. */
  lemma JoinedRenderedFirst<T>(start: string, es: seq<T>, render: T -> string, delim: string)
    requires es != []
    ensures start + render(es[0]) == start + Joined(Rendered(es[..1], render), delim)
  {
    assert es[..1] == [es[0]];
    assert Rendered(es[..1], render) == [render(es[0])];
    JoinedSingle(render(es[0]), delim);
  }

  /** One more element of a delimited sequence: the delimiter, then the element. */
  lemma JoinedRenderedStep<T>(start: string, es: seq<T>, i: nat, render: T -> string, delim: string)
    requires 1 <= i < |es|
    ensures start + Joined(Rendered(es[..i], render), delim) + delim + render(es[i])
         == start + Joined(Rendered(es[..i + 1], render), delim)
  {
    RenderedPush(es, i, render);
    JoinedPush(Rendered(es[..i], render), render(es[i]), delim);
    AppendAssoc(start, Joined(Rendered(es[..i], render), delim), delim, render(es[i]));
  }

  /** One more element of a terminated sequence: the element, then the terminator. */
  lemma TerminatedRenderedStep<T>(start: string, es: seq<T>, i: nat, render: T -> string, term: string)
    requires i < |es|
    ensures start + Terminated(Rendered(es[..i], render), term) + render(es[i]) + term
         == start + Terminated(Rendered(es[..i + 1], render), term)
  {
    RenderedPush(es, i, render);
    assert Rendered(es[..i + 1], render)[..i] == Rendered(es[..i], render);
    AppendAssoc(start, Terminated(Rendered(es[..i], render), term), render(es[i]), term);
  }

  /** One more element of a concatenation. */
  lemma ConcatenatedRenderedStep<T>(start: string, es: seq<T>, i: nat, render: T -> string)
    requires i < |es|
    ensures start + Concatenation(Rendered(es[..i], render)) + render(es[i])
         == start + Concatenation(Rendered(es[..i + 1], render))
  {
    RenderedPush(es, i, render);
    ConcatenationPush(Rendered(es[..i], render), render(es[i]));
    AppendAssoc3(start, Concatenation(Rendered(es[..i], render)), render(es[i]));
  }
}
