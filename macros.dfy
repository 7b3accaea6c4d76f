/** The macro renderers of src/fmt/macros.rs: a declaration `macro name { rules }`, each
    rule `lhs => {rhs};`, and the elements a rule is made of (literal tokens, `$name:kind`
    parameters, `$(..),*` repetitions and bracketed subtrees). Each renderer is a method
    that appends step by step; the text it appends is given by the functions below. */
module Macros {
  import opened Optional
  import opened Sink
  import opened Layout
  import opened CairoWrite
  import Tokens
  import TokenTable

  datatype MacroParamKind = Identifier(value: string) | Expr(value: string) | Missing

  datatype MacroParam = MacroParam(name: string, kind: Option<MacroParamKind>)

  datatype MacroRepetitionOperator = ZeroOrOne | ZeroOrMore | OneOrMore | Missing

  datatype MacroElement =
    | Token(token: TokenTable.TokenNode)
    | Param(param: MacroParam)
    | Subtree(subtree: WrappedMacro)
    | Repetition(repetition: MacroRepetition)

  datatype WrappedMacro =
    | Parenthesized(elements: seq<MacroElement>)
    | Braced(elements: seq<MacroElement>)
    | Bracketed(elements: seq<MacroElement>)

  datatype MacroRepetition = MacroRepetition(elements: seq<MacroElement>, comma: bool, operator: MacroRepetitionOperator)

  /** A rule `lhs => {rhs};`. */
  datatype MacroRule = MacroRule(lhs: MacroElement, rhs: seq<MacroElement>)

  /** Attributes and visibility are rendered by code outside this model and are carried
      here as the text they render to. */
  datatype MacroDeclarationItem = MacroDeclarationItem(attributes: string, visibility: string, name: string, rules: seq<MacroRule>)

  // ---------------------------------------------------------------------------------
  // The text of each construct

  function KindText(k: MacroParamKind): string
  {
    match k
    case Identifier(v) => v
    case Expr(v) => v
    case Missing => ""
  }

  function ParamText(p: MacroParam): string
  {
    "$" + p.name + (if p.kind.Some? then ":" + KindText(p.kind.value) else "")
  }

  function OperatorText(op: MacroRepetitionOperator): string
  {
    match op
    case ZeroOrOne => "?"
    case ZeroOrMore => "*"
    case OneOrMore => "+"
    case Missing => ""
  }

  function ElementText(e: MacroElement): string
    decreases e
  {
    match e
    case Token(t) => TokenTable.Spelling(t)
    case Param(p) => ParamText(p)
    case Subtree(m) => WrappedText(m)
    case Repetition(r) => RepetitionText(r)
  }

  /** The elements back to back, with nothing between them. */
  function ElementsText(es: seq<MacroElement>): string
    decreases es
  {
    if es == [] then "" else ElementsText(es[..|es| - 1]) + ElementText(es[|es| - 1])
  }

  function WrappedText(m: WrappedMacro): string
    decreases m
  {
    match m
    case Parenthesized(es) => "(" + ElementsText(es) + ")"
    case Braced(es) => "{" + ElementsText(es) + "}"
    case Bracketed(es) => "[" + ElementsText(es) + "]"
  }

  function RepetitionText(r: MacroRepetition): string
    decreases r
  {
    "$" + ("(" + ElementsText(r.elements) + ")") + (if r.comma then "," else "") + OperatorText(r.operator)
  }

  /** What follows the closing parenthesis of a repetition. */
  function Trailer(comma: bool, op: MacroRepetitionOperator): string
  {
    (if comma then "," else "") + OperatorText(op)
  }

  function RuleText(r: MacroRule): string
  {
    ElementText(r.lhs) + " => " + ("{" + ElementsText(r.rhs) + "}") + ";"
  }

  function DeclarationText(d: MacroDeclarationItem): string
  {
    d.attributes + d.visibility + "macro " + d.name + " {\n"
      + Block(Rendered(d.rules, RuleText)) + "\n}"
  }

  /** The opening bracket of a subtree. */
  function Opener(m: WrappedMacro): char
  {
    match m
    case Parenthesized(_) => '('
    case Braced(_) => '{'
    case Bracketed(_) => '['
  }

  /** Reads an operator back from its text. */
  function ReadOperator(s: string): MacroRepetitionOperator
  {
    if s == "?" then ZeroOrOne
    else if s == "*" then ZeroOrMore
    else if s == "+" then OneOrMore
    else MacroRepetitionOperator.Missing
  }

  // ---------------------------------------------------------------------------------
  // Properties

  /** The element list of a subtree, repetition or rule body is the concatenation of the
      elements' own texts: what `cwrite_concatenated` writes for them. */
  lemma {:induction false} ElementsTextIsConcatenation(es: seq<MacroElement>)
    ensures ElementsText(es) == Concatenation(Rendered(es, ElementText))
  {
    if es != [] {
      ElementsTextIsConcatenation(es[..|es| - 1]);
      RenderedPush(es, |es| - 1, ElementText);
      assert es[..|es| - 1 + 1] == es;
      ConcatenationPush(Rendered(es[..|es| - 1], ElementText), ElementText(es[|es| - 1]));
    }
  }

  /** A subtree sits between its opening bracket and that bracket's partner. */
  lemma WrappedEnclosed(m: WrappedMacro)
    ensures WrappedText(m) == [Opener(m)] + ElementsText(m.elements) + [Tokens.GetEnclosers(Opener(m)).1]
  {
  }

  /** The opening bracket tells which kind of subtree was written. */
  lemma WrappedKindIsVisible(a: WrappedMacro, b: WrappedMacro)
    requires WrappedText(a) == WrappedText(b)
    ensures Opener(a) == Opener(b)
    ensures a.Parenthesized? == b.Parenthesized? && a.Braced? == b.Braced? && a.Bracketed? == b.Bracketed?
  {
    assert WrappedText(a)[0] == Opener(a);
    assert WrappedText(b)[0] == Opener(b);
  }

  /** The operator text reads back to the operator. */
  lemma OperatorRoundTrip(op: MacroRepetitionOperator)
    ensures ReadOperator(OperatorText(op)) == op
    ensures |OperatorText(op)| <= 1
  {
  }

  /** The text after a repetition's closing parenthesis determines both the comma flag and
      the operator. */
  lemma TrailerDetermines(c1: bool, o1: MacroRepetitionOperator, c2: bool, o2: MacroRepetitionOperator)
    requires Trailer(c1, o1) == Trailer(c2, o2)
    ensures c1 == c2 && o1 == o2
  {
    var t := Trailer(c1, o1);
    if c1 && c2 {
      assert OperatorText(o1) == t[1..] == OperatorText(o2);
      OperatorRoundTrip(o1);
      OperatorRoundTrip(o2);
    } else if !c1 && !c2 {
      assert t == OperatorText(o1) && t == OperatorText(o2);
      OperatorRoundTrip(o1);
      OperatorRoundTrip(o2);
    } else {
      if c1 {
        CommaIsNoOperator(o1, o2);
      } else {
        CommaIsNoOperator(o2, o1);
      }
      assert false;
    }
  }

  /** A comma is never an operator: a trailer with a comma starts with one, a trailer
      without cannot. */
  lemma CommaIsNoOperator(o1: MacroRepetitionOperator, o2: MacroRepetitionOperator)
    ensures Trailer(true, o1) != Trailer(false, o2)
  {
    assert Trailer(true, o1)[0] == ',';
    assert Trailer(false, o2) == OperatorText(o2);
  }

  /** Two repetitions over the same elements print alike only when they agree on the comma
      and the operator. */
  lemma RepetitionTextDetermines(r1: MacroRepetition, r2: MacroRepetition)
    requires r1.elements == r2.elements
    requires RepetitionText(r1) == RepetitionText(r2)
    ensures r1 == r2
  {
    var head := "$" + ("(" + ElementsText(r1.elements) + ")");
    AppendAssoc3(head, if r1.comma then "," else "", OperatorText(r1.operator));
    AppendAssoc3(head, if r2.comma then "," else "", OperatorText(r2.operator));
    assert Trailer(r1.comma, r1.operator) == RepetitionText(r1)[|head|..];
    assert Trailer(r2.comma, r2.operator) == RepetitionText(r2)[|head|..];
    TrailerDetermines(r1.comma, r1.operator, r2.comma, r2.operator);
  }

  /** A parameter without a kind is `$name`; with a kind it gets a `:`, even when the kind
      is missing, so the two never print alike. */
  lemma ParamKindMarker(name: string, k: MacroParamKind)
    ensures ParamText(MacroParam(name, None)) == "$" + name
    ensures ParamText(MacroParam(name, Some(k))) == "$" + name + ":" + KindText(k)
    ensures ParamText(MacroParam(name, Some(MacroParamKind.Missing))) == "$" + name + ":"
    ensures ParamText(MacroParam(name, None)) != ParamText(MacroParam(name, Some(k)))
  {
    assert |ParamText(MacroParam(name, None))| < |ParamText(MacroParam(name, Some(k)))|;
  }

  /** The rule `foo => {+1};`. */
  lemma RuleExample()
    ensures RuleText(MacroRule(Token(TokenTable.Identifier("foo")),
                               [Token(TokenTable.Plus), Token(TokenTable.LiteralNumber("1"))]))
         == "foo => {+1};"
  {
    var rhs := [Token(TokenTable.Plus), Token(TokenTable.LiteralNumber("1"))];
    assert rhs[..1][..0] == [] && rhs[..1] == [rhs[0]];
    assert ElementsText(rhs[..1]) == "+";
    assert ElementsText(rhs) == "+1";
  }

  /** A declaration with rules: a blank line after the opening brace, one rule per line,
      and a blank line before the closing brace. */
  lemma DeclarationLines(d: MacroDeclarationItem)
    requires d.rules != []
    ensures DeclarationText(d)
         == d.attributes + d.visibility + "macro " + d.name + " {\n"
            + "\n" + Joined(Rendered(d.rules, RuleText), "\n") + "\n" + "\n}"
  {
    BlockLines(Rendered(d.rules, RuleText));
  }

  /** A declaration without rules. */
  lemma EmptyDeclaration(d: MacroDeclarationItem)
    requires d.rules == []
    ensures DeclarationText(d) == d.attributes + d.visibility + "macro " + d.name + " {\n\n}"
  {
  }

  // ---------------------------------------------------------------------------------
  // Writers

  method CwriteParamKind(k: MacroParamKind, w: Writer)
    requires w.Valid()
    modifies w.Target()
    ensures w.Valid() && w.Written() == old(w.Written()) + KindText(k)
  {
    match k
    case Identifier(v) => WriteStr(w, v);
    case Expr(v) => WriteStr(w, v);
    case Missing => assert old(w.Written()) + "" == old(w.Written());
  }

  method CwriteParam(p: MacroParam, w: Writer)
    requires w.Valid()
    modifies w.Target()
    ensures w.Valid() && w.Written() == old(w.Written()) + ParamText(p)
  {
    WriteChar(w, '$');
    WriteStr(w, p.name);
    if p.kind.Some? {
      CwritePrefixed(p.kind.value, KindText, w, ':');
      AppendAssoc(old(w.Written()), "$", p.name, ":" + KindText(p.kind.value));
    } else {
      AppendAssoc(old(w.Written()), "$", p.name, "");
    }
  }

  method CwriteOperator(op: MacroRepetitionOperator, w: Writer)
    requires w.Valid()
    modifies w.Target()
    ensures w.Valid() && w.Written() == old(w.Written()) + OperatorText(op)
  {
    match op
    case ZeroOrOne => WriteStr(w, "?");
    case ZeroOrMore => WriteStr(w, "*");
    case OneOrMore => WriteStr(w, "+");
    case Missing => assert old(w.Written()) + "" == old(w.Written());
  }

  /** `cwrite_concatenated_wrapped` over macro elements, in terms of `ElementsText`. */
  method WriteElementsWrapped(es: seq<MacroElement>, open: char, close: char, w: Writer)
    requires w.Valid()
    modifies w.Target()
    ensures w.Valid() && w.Written() == old(w.Written()) + ([open] + ElementsText(es) + [close])
  {
    CwriteConcatenatedWrapped(es, ElementText, w, open, close);
    ElementsTextIsConcatenation(es);
  }

  method CwriteRepetition(r: MacroRepetition, w: Writer)
    requires w.Valid()
    modifies w.Target()
    ensures w.Valid() && w.Written() == old(w.Written()) + RepetitionText(r)
  {
    WriteStr(w, "$");
    WriteElementsWrapped(r.elements, '(', ')', w);
    ghost var done := "$" + ("(" + ElementsText(r.elements) + ")");
    AppendAssoc3(old(w.Written()), "$", "(" + ElementsText(r.elements) + ")");
    if r.comma {
      WriteChar(w, ',');
    }
    AppendAssoc3(old(w.Written()), done, if r.comma then "," else "");
    done := done + (if r.comma then "," else "");
    CwriteOperator(r.operator, w);
    AppendAssoc3(old(w.Written()), done, OperatorText(r.operator));
  }

  method CwriteWrappedMacro(m: WrappedMacro, w: Writer)
    requires w.Valid()
    modifies w.Target()
    ensures w.Valid() && w.Written() == old(w.Written()) + WrappedText(m)
  {
    match m
    case Parenthesized(es) => WriteElementsWrapped(es, '(', ')', w);
    case Braced(es) => WriteElementsWrapped(es, '{', '}', w);
    case Bracketed(es) => WriteElementsWrapped(es, '[', ']', w);
  }

  method CwriteElement(e: MacroElement, w: Writer)
    requires w.Valid()
    modifies w.Target()
    ensures w.Valid() && w.Written() == old(w.Written()) + ElementText(e)
  {
    match e
    case Token(t) => TokenTable.WriteTokenNode(t, w);
    case Param(p) => CwriteParam(p, w);
    case Subtree(m) => CwriteWrappedMacro(m, w);
    case Repetition(r) => CwriteRepetition(r, w);
  }

  method CwriteRule(r: MacroRule, w: Writer)
    requires w.Valid()
    modifies w.Target()
    ensures w.Valid() && w.Written() == old(w.Written()) + RuleText(r)
  {
    CwriteElement(r.lhs, w);
    WriteStr(w, " => ");
    AppendAssoc3(old(w.Written()), ElementText(r.lhs), " => ");
    ghost var done := ElementText(r.lhs) + " => ";
    WriteElementsWrapped(r.rhs, '{', '}', w);
    AppendAssoc3(old(w.Written()), done, "{" + ElementsText(r.rhs) + "}");
    done := done + ("{" + ElementsText(r.rhs) + "}");
    WriteChar(w, ';');
    AppendAssoc3(old(w.Written()), done, ";");
  }

  method CwriteDeclaration(d: MacroDeclarationItem, w: Writer)
    requires w.Valid()
    modifies w.Target()
    ensures w.Valid() && w.Written() == old(w.Written()) + DeclarationText(d)
  {
    ghost var start := w.Written();
    ghost var done := d.attributes;
    WriteStr(w, d.attributes);
    WriteStr(w, d.visibility);
    AppendAssoc3(start, done, d.visibility);
    done := done + d.visibility;
    WriteStr(w, "macro ");
    AppendAssoc3(start, done, "macro ");
    done := done + "macro ";
    WriteStr(w, d.name);
    AppendAssoc3(start, done, d.name);
    done := done + d.name;
    WriteStr(w, " {\n");
    AppendAssoc3(start, done, " {\n");
    done := done + " {\n";
    CwriteBlock(d.rules, RuleText, w);
    AppendAssoc3(start, done, Block(Rendered(d.rules, RuleText)));
    done := done + Block(Rendered(d.rules, RuleText));
    WriteStr(w, "\n}");
    AppendAssoc3(start, done, "\n}");
  }
}
