/** The `FormatOp` implementations of src/cformat/op.rs: how an operation writes a value
    whose own text is given. `Affixes` (token lists, the same structure as `ElementOps`),
    `Affix` (one prefix and one suffix), `Prefix` and `Suffix`. */
module CFormatOp {
  import opened Sink
  import opened Tokens
  import opened Layout
  import FmtWrite

  datatype FormatOp =
    | Affixes(prefixes: seq<Token>, suffixes: seq<Token>)
    | Affix(prefix: Token, suffix: Token)
    | Prefix(token: Token)
    | Suffix(token: Token)

  /** The text `format` writes for a value whose own text is `text`. */
  function Format(op: FormatOp, text: string): string
  {
    match op
    case Affixes(ps, ss) => Affixed(ps, ss, text)
    case Affix(p, s) => Text(p) + text + Text(s)
    case Prefix(t) => Text(t) + text
    case Suffix(t) => text + Text(t)
  }

  /** The operation an `Affixes` value stands for in its current state. */
  function AsFormatOp(ops: FmtWrite.ElementOps): (op: FormatOp)
    reads ops
    ensures op.Affixes? && forall text :: Format(op, text) == ops.Rendering(text)
  {
    Affixes(ops.prefixes, ops.suffixes)
  }

  /** `Affix` is an `Affixes` with one token in each list. */
  lemma AffixIsSingleAffixes(p: Token, s: Token, text: string)
    ensures Format(Affix(p, s), text) == Format(Affixes([p], [s]), text)
  {
    SingleToken(p);
    SingleToken(s);
  }

  /** `Prefix` is an `Affixes` with one prefix and no suffix. */
  lemma PrefixIsAffixes(t: Token, text: string)
    ensures Format(Prefix(t), text) == Format(Affixes([t], []), text)
  {
    SingleToken(t);
    assert Concat([]) == "";
    assert Text(t) + text + "" == Text(t) + text;
  }

  /** `Suffix` is an `Affixes` with no prefix and one suffix. */
  lemma SuffixIsAffixes(t: Token, text: string)
    ensures Format(Suffix(t), text) == Format(Affixes([], [t]), text)
  {
    SingleToken(t);
    assert ConcatRev([]) == "";
    assert "" + text == text;
  }

  /** Every operation leaves the value's own text intact, somewhere in the middle. */
  lemma FormatContainsText(op: FormatOp, text: string)
    ensures exists pre, post :: Format(op, text) == pre + text + post
  {
    match op
    case Affixes(ps, ss) =>
      assert Format(op, text) == ConcatRev(ps) + text + Concat(ss);
    case Affix(p, s) =>
      assert Format(op, text) == Text(p) + text + Text(s);
    case Prefix(t) =>
      assert Format(op, text) == Text(t) + text + "";
    case Suffix(t) =>
      assert Format(op, text) == "" + text + Text(t);
  }

  /** `format`: the steps of each implementation, for any sink. */
  method FormatInto<T>(op: FormatOp, obj: T, render: T -> string, w: Writer)
    requires w.Valid()
    modifies w.Target()
    ensures w.Valid() && w.Written() == old(w.Written()) + Format(op, render(obj))
  {
    match op
    case Affixes(ps, ss) => FormatAffixes(ps, ss, render(obj), w);
    case Affix(p, s) => FormatAffix(p, s, render(obj), w);
    case Prefix(t) => FormatPrefix(t, render(obj), w);
    case Suffix(t) => FormatSuffix(t, render(obj), w);
  }

  /** `Affixes::format`: the prefixes last-attached first, the value, the suffixes. */
  method FormatAffixes(prefixes: seq<Token>, suffixes: seq<Token>, text: string, w: Writer)
    requires w.Valid()
    modifies w.Target()
    ensures w.Valid() && w.Written() == old(w.Written()) + Affixed(prefixes, suffixes, text)
  {
    WriteTokensRev(w, prefixes);
    WriteStr(w, text);
    WriteTokens(w, suffixes);
    AffixedAfter(old(w.Written()), prefixes, suffixes, text);
  }

  /** `Affix::format`. */
  method FormatAffix(prefix: Token, suffix: Token, text: string, w: Writer)
    requires w.Valid()
    modifies w.Target()
    ensures w.Valid() && w.Written() == old(w.Written()) + (Text(prefix) + text + Text(suffix))
  {
    WriteToken(w, prefix);
    WriteStr(w, text);
    WriteToken(w, suffix);
    AppendAssoc(old(w.Written()), Text(prefix), text, Text(suffix));
  }

  /** `Prefix::format`. */
  method FormatPrefix(token: Token, text: string, w: Writer)
    requires w.Valid()
    modifies w.Target()
    ensures w.Valid() && w.Written() == old(w.Written()) + (Text(token) + text)
  {
    WriteToken(w, token);
    WriteStr(w, text);
    AppendAssoc3(old(w.Written()), Text(token), text);
  }

  /** `Suffix::format`. */
  method FormatSuffix(token: Token, text: string, w: Writer)
    requires w.Valid()
    modifies w.Target()
    ensures w.Valid() && w.Written() == old(w.Written()) + (text + Text(token))
  {
    WriteStr(w, text);
    WriteToken(w, token);
    AppendAssoc3(old(w.Written()), text, Text(token));
  }
}
