/** The literal-token table of src/fmt/macros.rs: the text each `TokenNode` tag is
    written as. Content-carrying tags write their text unchanged; every other tag has a
    fixed spelling. Two pairs of fixed tags share a spelling in the table as written
    (`DivEq` and `Div` both write `/`; `EndOfFile` and `Empty` both write nothing); apart
    from them the spelling identifies the tag, which `Lex` shows by reading it back. */
module TokenTable {
  import opened Optional
  import opened Sink
  import opened Tokens

  datatype TokenNode =
      Identifier(text: string)
    | LiteralNumber(text: string)
    | ShortString(text: string)
    | String(text: string)
    | As
    | Const
    | Else
    | Enum
    | Extern
    | False
    | Function
    | If
    | While
    | For
    | Loop
    | Impl
    | Implicits
    | Let
    | Macro
    | Match
    | Module
    | Mut
    | NoPanic
    | Of
    | Ref
    | Continue
    | Return
    | Break
    | Struct
    | Trait
    | True
    | Type
    | Use
    | Pub
    | And
    | AndAnd
    | Arrow
    | At
    | BadCharacters(text: string)
    | Colon
    | ColonColon
    | Comma
    | Div
    | DivEq
    | Dollar
    | Dot
    | DotDot
    | DotDotEq
    | EndOfFile
    | Eq
    | EqEq
    | GE
    | GT
    | Hash
    | LBrace
    | LBrack
    | LE
    | LParen
    | LT
    | MatchArrow
    | Minus
    | MinusEq
    | Mod
    | ModEq
    | Mul
    | MulEq
    | Neq
    | Not
    | BitNot
    | Or
    | OrOr
    | Plus
    | PlusEq
    | QuestionMark
    | RBrace
    | RBrack
    | RParen
    | Semicolon
    | Underscore
    | Xor
    | Empty

  /** The tags whose spelling is fixed by the table, as opposed to carried in the node. */
  predicate IsFixed(t: TokenNode)
  {
    !t.Identifier? && !t.LiteralNumber? && !t.ShortString? && !t.String? && !t.BadCharacters?
  }

  /** The text `cwrite` writes for a token node. */
  function Spelling(t: TokenNode): string
  {
    Text(Row(t))
  }

  /** The row of the table: the one `write_str` or `write_char` each tag makes. Content
      tags write their own text; every other tag a fixed string or character. */
  function Row(t: TokenNode): Token
  {
    match t
    case Identifier(s) => Str(s)
    case LiteralNumber(s) => Str(s)
    case ShortString(s) => Str(s)
    case String(s) => Str(s)
    case As => Str("as")
    case Const => Str("const")
    case Else => Str("else")
    case Enum => Str("enum")
    case Extern => Str("extern")
    case False => Str("false")
    case Function => Str("function")
    case If => Str("if")
    case While => Str("while")
    case For => Str("for")
    case Loop => Str("loop")
    case Impl => Str("impl")
    case Implicits => Str("implicits")
    case Let => Str("let")
    case Macro => Str("macro")
    case Match => Str("match")
    case Module => Str("module")
    case Mut => Str("mut")
    case NoPanic => Str("no_panic")
    case Of => Str("of")
    case Ref => Str("ref")
    case Continue => Str("continue")
    case Return => Str("return")
    case Break => Str("break")
    case Struct => Str("struct")
    case Trait => Str("trait")
    case True => Str("true")
    case Type => Str("type")
    case Use => Str("use")
    case Pub => Str("pub")
    case And => Str("&")
    case AndAnd => Str("&&")
    case Arrow => Str("->")
    case At => Str("@")
    case Colon => Char(':')
    case ColonColon => Str("::")
    case Comma => Char(',')
    case Div => Char('/')
    case DivEq => Char('/')
    case Dollar => Char('$')
    case Dot => Char('.')
    case DotDot => Str("..")
    case DotDotEq => Str("..=")
    case EndOfFile => Str("")
    case Eq => Char('=')
    case EqEq => Str("==")
    case GE => Str(">=")
    case GT => Char('>')
    case Hash => Str("#")
    case LBrace => Char('{')
    case LBrack => Char('[')
    case LE => Str("<=")
    case LParen => Char('(')
    case LT => Char('<')
    case MatchArrow => Str("=>")
    case Minus => Char('-')
    case MinusEq => Str("-=")
    case Mod => Char('%')
    case ModEq => Str("%=")
    case Mul => Char('*')
    case MulEq => Str("*=")
    case Neq => Str("!=")
    case Not => Str("!")
    case BitNot => Str("~")
    case Or => Str("|")
    case OrOr => Str("||")
    case Plus => Str("+")
    case PlusEq => Str("+=")
    case QuestionMark => Str("?")
    case RBrace => Str("}")
    case RBrack => Str("]")
    case RParen => Str(")")
    case Semicolon => Str(";")
    case Underscore => Str("_")
    case Xor => Str("^")
    case Empty => Str("")
    case BadCharacters(s) => Str(s)
  }

  /** Reads a fixed spelling back to a tag, by length and then character by character;
      of two tags that share a spelling it returns the one `Canonical` picks. */
  function Lex(s: string): Option<TokenNode>
  {
    if |s| == 0 then Some(EndOfFile)
    else if |s| == 1 then LexChar(s[0])
    else if |s| == 2 then LexPair(s[0], s[1])
    else LexWord(s)
  }

  function LexChar(c: char): Option<TokenNode>
  {
    match c
    case '&' => Some(And)
    case '@' => Some(At)
    case ':' => Some(Colon)
    case ',' => Some(Comma)
    case '/' => Some(Div)
    case '$' => Some(Dollar)
    case '.' => Some(Dot)
    case '=' => Some(Eq)
    case '>' => Some(GT)
    case '#' => Some(Hash)
    case '{' => Some(LBrace)
    case '[' => Some(LBrack)
    case '(' => Some(LParen)
    case '<' => Some(LT)
    case '-' => Some(Minus)
    case '%' => Some(Mod)
    case '*' => Some(Mul)
    case '!' => Some(Not)
    case '~' => Some(BitNot)
    case '|' => Some(Or)
    case '+' => Some(Plus)
    case '?' => Some(QuestionMark)
    case '}' => Some(RBrace)
    case ']' => Some(RBrack)
    case ')' => Some(RParen)
    case ';' => Some(Semicolon)
    case '_' => Some(Underscore)
    case '^' => Some(Xor)
    case _ => None
  }

  function LexPair(c: char, d: char): Option<TokenNode>
  {
    match (c, d)
    case ('a', 's') => Some(As)
    case ('i', 'f') => Some(If)
    case ('o', 'f') => Some(Of)
    case ('&', '&') => Some(AndAnd)
    case ('-', '>') => Some(Arrow)
    case (':', ':') => Some(ColonColon)
    case ('.', '.') => Some(DotDot)
    case ('=', '=') => Some(EqEq)
    case ('>', '=') => Some(GE)
    case ('<', '=') => Some(LE)
    case ('=', '>') => Some(MatchArrow)
    case ('-', '=') => Some(MinusEq)
    case ('%', '=') => Some(ModEq)
    case ('*', '=') => Some(MulEq)
    case ('!', '=') => Some(Neq)
    case ('|', '|') => Some(OrOr)
    case ('+', '=') => Some(PlusEq)
    case _ => None
  }

  function LexWord(s: string): Option<TokenNode>
    requires |s| >= 3
  {
    match s[0]
    case 'c' => if s == "const" then Some(Const) else if s == "continue" then Some(Continue) else None
    case 'e' => if s == "else" then Some(Else) else if s == "enum" then Some(Enum) else if s == "extern" then Some(Extern) else None
    case 'f' => if s == "false" then Some(False) else if s == "function" then Some(Function) else if s == "for" then Some(For) else None
    case 'w' => if s == "while" then Some(While) else None
    case 'l' => if s == "loop" then Some(Loop) else if s == "let" then Some(Let) else None
    case 'i' => if s == "impl" then Some(Impl) else if s == "implicits" then Some(Implicits) else None
    case 'm' => if s == "macro" then Some(Macro) else if s == "match" then Some(Match) else if s == "module" then Some(Module) else if s == "mut" then Some(Mut) else None
    case 'n' => if s == "no_panic" then Some(NoPanic) else None
    case 'r' => if s == "ref" then Some(Ref) else if s == "return" then Some(Return) else None
    case 'b' => if s == "break" then Some(Break) else None
    case 's' => if s == "struct" then Some(Struct) else None
    case 't' => if s == "trait" then Some(Trait) else if s == "true" then Some(True) else if s == "type" then Some(Type) else None
    case 'u' => if s == "use" then Some(Use) else None
    case 'p' => if s == "pub" then Some(Pub) else None
    case '.' => if s == "..=" then Some(DotDotEq) else None
    case _ => None
  }

  /** The representative of a tag among the fixed tags with the same spelling. */
  function Canonical(t: TokenNode): (c: TokenNode)
    ensures IsFixed(t) ==> IsFixed(c)
    ensures c != t ==> t == DivEq || t == Empty
  {
    match t
    case DivEq => Div
    case Empty => EndOfFile
    case _ => t
  }

  /** Every fixed spelling reads back to its tag, up to the two shared spellings. */
  lemma SpellingRoundTrip(t: TokenNode)
    requires IsFixed(t)
    ensures Lex(Spelling(t)) == Some(Canonical(t))
  {
    match t
    case As => AsRoundTrip();
    case Const => ConstRoundTrip();
    case Else => ElseRoundTrip();
    case Enum => EnumRoundTrip();
    case Extern => ExternRoundTrip();
    case False => FalseRoundTrip();
    case Function => FunctionRoundTrip();
    case If => IfRoundTrip();
    case While => WhileRoundTrip();
    case For => ForRoundTrip();
    case Loop => LoopRoundTrip();
    case Impl => ImplRoundTrip();
    case Implicits => ImplicitsRoundTrip();
    case Let => LetRoundTrip();
    case Macro => MacroRoundTrip();
    case Match => MatchRoundTrip();
    case Module => ModuleRoundTrip();
    case Mut => MutRoundTrip();
    case NoPanic => NoPanicRoundTrip();
    case Of => OfRoundTrip();
    case Ref => RefRoundTrip();
    case Continue => ContinueRoundTrip();
    case Return => ReturnRoundTrip();
    case Break => BreakRoundTrip();
    case Struct => StructRoundTrip();
    case Trait => TraitRoundTrip();
    case True => TrueRoundTrip();
    case Type => TypeRoundTrip();
    case Use => UseRoundTrip();
    case Pub => PubRoundTrip();
    case And => AndRoundTrip();
    case AndAnd => AndAndRoundTrip();
    case Arrow => ArrowRoundTrip();
    case At => AtRoundTrip();
    case Colon => ColonRoundTrip();
    case ColonColon => ColonColonRoundTrip();
    case Comma => CommaRoundTrip();
    case Div => DivRoundTrip();
    case DivEq => DivEqRoundTrip();
    case Dollar => DollarRoundTrip();
    case Dot => DotRoundTrip();
    case DotDot => DotDotRoundTrip();
    case DotDotEq => DotDotEqRoundTrip();
    case EndOfFile => EndOfFileRoundTrip();
    case Eq => EqRoundTrip();
    case EqEq => EqEqRoundTrip();
    case GE => GERoundTrip();
    case GT => GTRoundTrip();
    case Hash => HashRoundTrip();
    case LBrace => LBraceRoundTrip();
    case LBrack => LBrackRoundTrip();
    case LE => LERoundTrip();
    case LParen => LParenRoundTrip();
    case LT => LTRoundTrip();
    case MatchArrow => MatchArrowRoundTrip();
    case Minus => MinusRoundTrip();
    case MinusEq => MinusEqRoundTrip();
    case Mod => ModRoundTrip();
    case ModEq => ModEqRoundTrip();
    case Mul => MulRoundTrip();
    case MulEq => MulEqRoundTrip();
    case Neq => NeqRoundTrip();
    case Not => NotRoundTrip();
    case BitNot => BitNotRoundTrip();
    case Or => OrRoundTrip();
    case OrOr => OrOrRoundTrip();
    case Plus => PlusRoundTrip();
    case PlusEq => PlusEqRoundTrip();
    case QuestionMark => QuestionMarkRoundTrip();
    case RBrace => RBraceRoundTrip();
    case RBrack => RBrackRoundTrip();
    case RParen => RParenRoundTrip();
    case Semicolon => SemicolonRoundTrip();
    case Underscore => UnderscoreRoundTrip();
    case Xor => XorRoundTrip();
    case Empty => EmptyRoundTrip();
    case Identifier(_) | LiteralNumber(_) | ShortString(_) | String(_) | BadCharacters(_) => assert false;
  }

  /** The round trip of each fixed tag, one row at a time. */
  lemma AsRoundTrip() ensures Lex(Spelling(As)) == Some(Canonical(As)) {}
  lemma ConstRoundTrip() ensures Lex(Spelling(Const)) == Some(Canonical(Const)) {}
  lemma ElseRoundTrip() ensures Lex(Spelling(Else)) == Some(Canonical(Else)) {}
  lemma EnumRoundTrip() ensures Lex(Spelling(Enum)) == Some(Canonical(Enum)) {}
  lemma ExternRoundTrip() ensures Lex(Spelling(Extern)) == Some(Canonical(Extern)) {}
  lemma FalseRoundTrip() ensures Lex(Spelling(False)) == Some(Canonical(False)) {}
  lemma FunctionRoundTrip() ensures Lex(Spelling(Function)) == Some(Canonical(Function)) {}
  lemma IfRoundTrip() ensures Lex(Spelling(If)) == Some(Canonical(If)) {}
  lemma WhileRoundTrip() ensures Lex(Spelling(While)) == Some(Canonical(While)) {}
  lemma ForRoundTrip() ensures Lex(Spelling(For)) == Some(Canonical(For)) {}
  lemma LoopRoundTrip() ensures Lex(Spelling(Loop)) == Some(Canonical(Loop)) {}
  lemma ImplRoundTrip() ensures Lex(Spelling(Impl)) == Some(Canonical(Impl)) {}
  lemma ImplicitsRoundTrip() ensures Lex(Spelling(Implicits)) == Some(Canonical(Implicits)) {}
  lemma LetRoundTrip() ensures Lex(Spelling(Let)) == Some(Canonical(Let)) {}
  lemma MacroRoundTrip() ensures Lex(Spelling(Macro)) == Some(Canonical(Macro)) {}
  lemma MatchRoundTrip() ensures Lex(Spelling(Match)) == Some(Canonical(Match)) {}
  lemma ModuleRoundTrip() ensures Lex(Spelling(Module)) == Some(Canonical(Module)) {}
  lemma MutRoundTrip() ensures Lex(Spelling(Mut)) == Some(Canonical(Mut)) {}
  lemma NoPanicRoundTrip() ensures Lex(Spelling(NoPanic)) == Some(Canonical(NoPanic)) {}
  lemma OfRoundTrip() ensures Lex(Spelling(Of)) == Some(Canonical(Of)) {}
  lemma RefRoundTrip() ensures Lex(Spelling(Ref)) == Some(Canonical(Ref)) {}
  lemma ContinueRoundTrip() ensures Lex(Spelling(Continue)) == Some(Canonical(Continue)) {}
  lemma ReturnRoundTrip() ensures Lex(Spelling(Return)) == Some(Canonical(Return)) {}
  lemma BreakRoundTrip() ensures Lex(Spelling(Break)) == Some(Canonical(Break)) {}
  lemma StructRoundTrip() ensures Lex(Spelling(Struct)) == Some(Canonical(Struct)) {}
  lemma TraitRoundTrip() ensures Lex(Spelling(Trait)) == Some(Canonical(Trait)) {}
  lemma TrueRoundTrip() ensures Lex(Spelling(True)) == Some(Canonical(True)) {}
  lemma TypeRoundTrip() ensures Lex(Spelling(Type)) == Some(Canonical(Type)) {}
  lemma UseRoundTrip() ensures Lex(Spelling(Use)) == Some(Canonical(Use)) {}
  lemma PubRoundTrip() ensures Lex(Spelling(Pub)) == Some(Canonical(Pub)) {}
  lemma AndRoundTrip() ensures Lex(Spelling(And)) == Some(Canonical(And)) {}
  lemma AndAndRoundTrip() ensures Lex(Spelling(AndAnd)) == Some(Canonical(AndAnd)) {}
  lemma ArrowRoundTrip() ensures Lex(Spelling(Arrow)) == Some(Canonical(Arrow)) {}
  lemma AtRoundTrip() ensures Lex(Spelling(At)) == Some(Canonical(At)) {}
  lemma ColonRoundTrip() ensures Lex(Spelling(Colon)) == Some(Canonical(Colon)) {}
  lemma ColonColonRoundTrip() ensures Lex(Spelling(ColonColon)) == Some(Canonical(ColonColon)) {}
  lemma CommaRoundTrip() ensures Lex(Spelling(Comma)) == Some(Canonical(Comma)) {}
  lemma DivRoundTrip() ensures Lex(Spelling(Div)) == Some(Canonical(Div)) {}
  lemma DivEqRoundTrip() ensures Lex(Spelling(DivEq)) == Some(Canonical(DivEq)) {}
  lemma DollarRoundTrip() ensures Lex(Spelling(Dollar)) == Some(Canonical(Dollar)) {}
  lemma DotRoundTrip() ensures Lex(Spelling(Dot)) == Some(Canonical(Dot)) {}
  lemma DotDotRoundTrip() ensures Lex(Spelling(DotDot)) == Some(Canonical(DotDot)) {}
  lemma DotDotEqRoundTrip() ensures Lex(Spelling(DotDotEq)) == Some(Canonical(DotDotEq)) {}
  lemma EndOfFileRoundTrip() ensures Lex(Spelling(EndOfFile)) == Some(Canonical(EndOfFile)) {}
  lemma EqRoundTrip() ensures Lex(Spelling(Eq)) == Some(Canonical(Eq)) {}
  lemma EqEqRoundTrip() ensures Lex(Spelling(EqEq)) == Some(Canonical(EqEq)) {}
  lemma GERoundTrip() ensures Lex(Spelling(GE)) == Some(Canonical(GE)) {}
  lemma GTRoundTrip() ensures Lex(Spelling(GT)) == Some(Canonical(GT)) {}
  lemma HashRoundTrip() ensures Lex(Spelling(Hash)) == Some(Canonical(Hash)) {}
  lemma LBraceRoundTrip() ensures Lex(Spelling(LBrace)) == Some(Canonical(LBrace)) {}
  lemma LBrackRoundTrip() ensures Lex(Spelling(LBrack)) == Some(Canonical(LBrack)) {}
  lemma LERoundTrip() ensures Lex(Spelling(LE)) == Some(Canonical(LE)) {}
  lemma LParenRoundTrip() ensures Lex(Spelling(LParen)) == Some(Canonical(LParen)) {}
  lemma LTRoundTrip() ensures Lex(Spelling(LT)) == Some(Canonical(LT)) {}
  lemma MatchArrowRoundTrip() ensures Lex(Spelling(MatchArrow)) == Some(Canonical(MatchArrow)) {}
  lemma MinusRoundTrip() ensures Lex(Spelling(Minus)) == Some(Canonical(Minus)) {}
  lemma MinusEqRoundTrip() ensures Lex(Spelling(MinusEq)) == Some(Canonical(MinusEq)) {}
  lemma ModRoundTrip() ensures Lex(Spelling(Mod)) == Some(Canonical(Mod)) {}
  lemma ModEqRoundTrip() ensures Lex(Spelling(ModEq)) == Some(Canonical(ModEq)) {}
  lemma MulRoundTrip() ensures Lex(Spelling(Mul)) == Some(Canonical(Mul)) {}
  lemma MulEqRoundTrip() ensures Lex(Spelling(MulEq)) == Some(Canonical(MulEq)) {}
  lemma NeqRoundTrip() ensures Lex(Spelling(Neq)) == Some(Canonical(Neq)) {}
  lemma NotRoundTrip() ensures Lex(Spelling(Not)) == Some(Canonical(Not)) {}
  lemma BitNotRoundTrip() ensures Lex(Spelling(BitNot)) == Some(Canonical(BitNot)) {}
  lemma OrRoundTrip() ensures Lex(Spelling(Or)) == Some(Canonical(Or)) {}
  lemma OrOrRoundTrip() ensures Lex(Spelling(OrOr)) == Some(Canonical(OrOr)) {}
  lemma PlusRoundTrip() ensures Lex(Spelling(Plus)) == Some(Canonical(Plus)) {}
  lemma PlusEqRoundTrip() ensures Lex(Spelling(PlusEq)) == Some(Canonical(PlusEq)) {}
  lemma QuestionMarkRoundTrip() ensures Lex(Spelling(QuestionMark)) == Some(Canonical(QuestionMark)) {}
  lemma RBraceRoundTrip() ensures Lex(Spelling(RBrace)) == Some(Canonical(RBrace)) {}
  lemma RBrackRoundTrip() ensures Lex(Spelling(RBrack)) == Some(Canonical(RBrack)) {}
  lemma RParenRoundTrip() ensures Lex(Spelling(RParen)) == Some(Canonical(RParen)) {}
  lemma SemicolonRoundTrip() ensures Lex(Spelling(Semicolon)) == Some(Canonical(Semicolon)) {}
  lemma UnderscoreRoundTrip() ensures Lex(Spelling(Underscore)) == Some(Canonical(Underscore)) {}
  lemma XorRoundTrip() ensures Lex(Spelling(Xor)) == Some(Canonical(Xor)) {}
  lemma EmptyRoundTrip() ensures Lex(Spelling(Empty)) == Some(Canonical(Empty)) {}

  /** Two fixed tags are spelled alike exactly when they are the same tag up to the
      `DivEq`/`Div` and `Empty`/`EndOfFile` collisions. */
  lemma FixedSpellingsCollide(a: TokenNode, b: TokenNode)
    requires IsFixed(a) && IsFixed(b)
    ensures Spelling(a) == Spelling(b) <==> Canonical(a) == Canonical(b)
  {
    SpellingRoundTrip(a);
    SpellingRoundTrip(b);
    CanonicalSpelling(a);
    CanonicalSpelling(b);
  }

  /** The content-carrying tags write their text unchanged. */
  lemma ContentPassesThrough(t: TokenNode)
    requires !IsFixed(t)
    ensures Spelling(t) == t.text
  {
  }

  /** `DivEq` is written as `Div` is, as a lone slash. */
  lemma DivEqSpelledAsDiv()
    ensures Spelling(DivEq) == Spelling(Div) == "/"
  {
  }

  /** `Empty` is written as `EndOfFile` is, as nothing. */
  lemma EmptySpelledAsEndOfFile()
    ensures Spelling(Empty) == Spelling(EndOfFile) == ""
  {
  }

  /** A tag and its representative are spelled alike. */
  lemma CanonicalSpelling(t: TokenNode)
    ensures Spelling(Canonical(t)) == Spelling(t)
  {
    if t.DivEq? {
      DivEqSpelledAsDiv();
    } else if t.Empty? {
      EmptySpelledAsEndOfFile();
    }
  }

  /** `cwrite` of a `TokenNode`: the row's one write. */
  method WriteTokenNode(t: TokenNode, w: Writer)
    requires w.Valid()
    modifies w.Target()
    ensures w.Valid() && w.Written() == old(w.Written()) + Spelling(t)
  {
    WriteToken(w, Row(t));
  }
}
