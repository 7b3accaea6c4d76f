/** Literal text tokens and token lists (src/fmt/write.rs and src/cformat/op.rs, which
    define the same `Token`, `MaybeTokenTrait`, `TokensTrait` and `get_enclosers`). */
module Tokens {
  import opened Optional
  import opened Sink

  /** A unit of literal text. Borrowed and owned strings are the same value here. */
  datatype Token = Char(c: char) | Str(s: string)

  /** What a caller hands to a builder: a character or a string (`TokenTrait`, `From`). */
  datatype Literal = CharLiteral(c: char) | StrLiteral(s: string)

  /** The text a token writes. */
  function Text(t: Token): string
  {
    match t
    case Char(c) => [c]
    case Str(s) => s
  }

  function LiteralText(l: Literal): string
  {
    match l
    case CharLiteral(c) => [c]
    case StrLiteral(s) => s
  }

  /** `to_token` / `Token::from`: a character becomes a Char token, a string a Str token. */
  function ToToken(l: Literal): (t: Token)
    ensures t.Char? <==> l.CharLiteral?
    ensures Text(t) == LiteralText(l)
  {
    match l
    case CharLiteral(c) => Char(c)
    case StrLiteral(s) => Str(s)
  }

  /** `maybe_token`: the unit value `()` (here `None`) gives no token. */
  function MaybeToken(m: Option<Literal>): (r: Option<Token>)
    ensures r.None? <==> m.None?
    ensures r.Some? ==> Text(r.value) == LiteralText(m.value)
    ensures r.Some? ==> (r.value.Char? <==> m.value.CharLiteral?)
  {
    match m
    case None => None
    case Some(l) => Some(ToToken(l))
  }

  /** The text an optional delimiter writes between two elements. */
  function DelimiterText(d: Option<Token>): string
  {
    match d
    case None => ""
    case Some(t) => Text(t)
  }

  /** The texts of `ts` in list order (`write_tokens`). */
  function Concat(ts: seq<Token>): string
  {
    if ts == [] then "" else Concat(ts[..|ts| - 1]) + Text(ts[|ts| - 1])
  }

  /** The texts of `ts` from the last token to the first (`write_tokens_rev`). */
  function ConcatRev(ts: seq<Token>): string
  {
    if ts == [] then "" else ConcatRev(ts[1..]) + Text(ts[0])
  }

  function Reversed(ts: seq<Token>): (r: seq<Token>)
    ensures |r| == |ts|
  {
    if ts == [] then [] else Reversed(ts[1..]) + [ts[0]]
  }

  lemma {:induction false} ReversedAt(ts: seq<Token>, k: nat)
    requires k < |ts|
    ensures Reversed(ts)[k] == ts[|ts| - 1 - k]
  {
    if k < |ts| - 1 {
      ReversedAt(ts[1..], k);
    }
  }

  lemma {:induction false} ConcatAppend(a: seq<Token>, b: seq<Token>)
    ensures Concat(a + b) == Concat(a) + Concat(b)
    decreases |b|
  {
    if b == [] {
      assert a + b == a;
    } else {
      assert (a + b)[..|a + b| - 1] == a + b[..|b| - 1];
      ConcatAppend(a, b[..|b| - 1]);
    }
  }

  /** Writing the list backwards is writing the reversed list forwards. */
  lemma {:induction false} ConcatRevIsConcatOfReversed(ts: seq<Token>)
    ensures ConcatRev(ts) == Concat(Reversed(ts))
  {
    if ts != [] {
      ConcatRevIsConcatOfReversed(ts[1..]);
      ConcatAppend(Reversed(ts[1..]), [ts[0]]);
      assert Concat([ts[0]]) == Text(ts[0]) by {
        assert [ts[0]][..0] == [];
      }
    }
  }

  /** A token attached last to a prefix list is written first. */
  lemma {:induction false} ConcatRevPush(ts: seq<Token>, t: Token)
    ensures ConcatRev(ts + [t]) == Text(t) + ConcatRev(ts)
  {
    if ts == [] {
      assert ([] + [t])[1..] == [];
    } else {
      assert (ts + [t])[1..] == ts[1..] + [t];
      ConcatRevPush(ts[1..], t);
    }
  }

  /** Taking every element leaves the sequence as it was: the exit step of a forward loop. */
  lemma TakeAll<T>(s: seq<T>)
    ensures s[..|s|] == s && s[0..] == s
  {
  }

  /** One more token of a forward write, after whatever came before it. */
  lemma ConcatStep(start: string, ts: seq<Token>, i: nat)
    requires i < |ts|
    ensures start + Concat(ts[..i]) + Text(ts[i]) == start + Concat(ts[..i + 1])
  {
    assert ts[..i + 1][..i] == ts[..i];
    assert Concat(ts[..i + 1]) == Concat(ts[..i]) + Text(ts[i]);
  }

  /** One more token of a backward write, after whatever came before it. */
  lemma ConcatRevStep(start: string, ts: seq<Token>, i: nat)
    requires i < |ts|
    ensures start + ConcatRev(ts[i + 1..]) + Text(ts[i]) == start + ConcatRev(ts[i..])
  {
    assert ts[i..][1..] == ts[i + 1..];
    assert ConcatRev(ts[i..]) == ConcatRev(ts[i + 1..]) + Text(ts[i]);
  }

  lemma SingleToken(t: Token)
    ensures ConcatRev([t]) == Text(t) && Concat([t]) == Text(t)
  {
    assert [t][1..] == [] && [t][..0] == [];
    assert ConcatRev([t]) == ConcatRev([]) + Text(t);
    assert Concat([t]) == Concat([]) + Text(t);
  }

  /** A value's text with a prefix list (emitted last-attached first) and a suffix list
      (emitted in attachment order) around it. */
  function Affixed(prefixes: seq<Token>, suffixes: seq<Token>, text: string): string
  {
    ConcatRev(prefixes) + text + Concat(suffixes)
  }

  /** Writing the prefixes, the text and the suffixes one after another after `start`
      leaves `start` followed by the affixed text. */
  lemma AffixedAfter(start: string, prefixes: seq<Token>, suffixes: seq<Token>, text: string)
    ensures start + ConcatRev(prefixes) + text + Concat(suffixes) == start + Affixed(prefixes, suffixes, text)
  {
    assert start + ConcatRev(prefixes) + text + Concat(suffixes)
        == start + (ConcatRev(prefixes) + text + Concat(suffixes));
  }

  /** Attaching one more prefix and suffix puts them outside everything attached before. */
  lemma WrapNests(prefixes: seq<Token>, suffixes: seq<Token>, open: Token, close: Token, text: string)
    ensures Affixed(prefixes + [open], suffixes + [close], text)
         == Text(open) + Affixed(prefixes, suffixes, text) + Text(close)
  {
    ConcatRevPush(prefixes, open);
    assert (suffixes + [close])[..|suffixes + [close]| - 1] == suffixes;
  }

  /** Two successive wraps: wrap(a, b) then wrap(c, d) renders c a value b d. */
  lemma WrapTwice(text: string, a: Token, b: Token, c: Token, d: Token)
    ensures Affixed([a, c], [b, d], text) == Text(c) + Text(a) + text + Text(b) + Text(d)
  {
    SingleToken(c);
    SingleToken(b);
    assert [a, c][1..] == [c] && [b, d][..1] == [b];
    assert ConcatRev([a, c]) == Text(c) + Text(a);
    assert Concat([b, d]) == Text(b) + Text(d);
  }

  /** `get_enclosers`: the closing partner of an opening bracket; any other character
      closes itself. */
  function GetEnclosers(c: char): (r: (char, char))
    ensures r.0 == c
    ensures r.1 != c <==> c in "({[<"
  {
    match c
    case '(' => ('(', ')')
    case '{' => ('{', '}')
    case '[' => ('[', ']')
    case '<' => ('<', '>')
    case _ => (c, c)
  }

  method WriteToken(w: Writer, t: Token)
    requires w.Valid()
    modifies w.Target()
    ensures w.Valid() && w.Written() == old(w.Written()) + Text(t)
    ensures t.Char? ==> w.Written() == old(w.Written()) + [t.c]
    ensures t.Str? ==> w.Written() == old(w.Written()) + t.s
  {
    match t
    case Str(s) => WriteStr(w, s);
    case Char(c) => WriteChar(w, c);
  }

  /** `write_tokens`: each token in list order. */
  method WriteTokens(w: Writer, ts: seq<Token>)
    requires w.Valid()
    modifies w.Target()
    ensures w.Valid() && w.Written() == old(w.Written()) + Concat(ts)
  {
    var i := 0;
    while i < |ts|
      invariant 0 <= i <= |ts|
      invariant w.Valid() && w.Written() == old(w.Written()) + Concat(ts[..i])
    {
      WriteToken(w, ts[i]);
      ConcatStep(old(w.Written()), ts, i);
      i := i + 1;
    }
    TakeAll(ts);
  }

  /** The optional delimiter of a sequence: its token, or nothing. */
  method WriteDelimiter(w: Writer, d: Option<Token>)
    requires w.Valid()
    modifies w.Target()
    ensures w.Valid() && w.Written() == old(w.Written()) + DelimiterText(d)
  {
    if d.Some? {
      WriteToken(w, d.value);
    } else {
      assert old(w.Written()) + "" == old(w.Written());
    }
  }

  /** One step of `write_tokens_rev`: token `i` goes after the tokens behind it. */
  method WriteTokenBefore(w: Writer, ghost start: string, ts: seq<Token>, i: nat)
    requires i < |ts| && w.Valid() && w.Written() == start + ConcatRev(ts[i + 1..])
    modifies w.Target()
    ensures w.Valid() && w.Written() == start + ConcatRev(ts[i..])
  {
    WriteToken(w, ts[i]);
    ConcatRevStep(start, ts, i);
  }

  /** `write_tokens_rev`: each token from the last to the first. */
  method WriteTokensRev(w: Writer, ts: seq<Token>)
    requires w.Valid()
    modifies w.Target()
    ensures w.Valid() && w.Written() == old(w.Written()) + ConcatRev(ts)
  {
    ghost var before := w.Written();
    var i := |ts|;
    while i > 0
      invariant 0 <= i <= |ts|
      invariant w.Valid() && w.Written() == before + ConcatRev(ts[i..])
    {
      i := i - 1;
      WriteTokenBefore(w, before, ts, i);
    }
    TakeAll(ts);
  }
}
