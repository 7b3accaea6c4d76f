# Writer combinators of cairo-syntax-parser, modelled in Dafny

cairo-syntax-parser turns syntax values back into Cairo source text ("unparsing"). It does
this with a small engine of writer combinators. A value writes its own text into a sink.
Combinators attach tokens before and after it and lay out sequences of values: back to
back, with a delimiter, with a terminator, as a comma-separated list, as a block of lines,
as a tuple. A second sink, the `Sizer`, only counts the UTF-8 octets written. It lets
`size_hint` measure a value's text by writing it once into the counter.

This project models that engine and proves what each writer appends.

- **Sinks.**
  - Both sinks are classes: `Sink.StringSink` stands for a Rust `String` and `Sink.Sizer` for the counter.
  - Every writer takes a `Writer` that is either of them.
  - Each writer is proved against a pure text function: `w.Written() == old(w.Written()) + Text(...)`.
  - The same proof holds for both sinks. For the `Sizer`, `Written()` is the ghost record of what was counted.
- **Values.** An element type `T` of the source's generic combinators comes with `render: T -> string`, the text the element's own `cwrite` writes.
- **Affix lists.** `ElementOps` (and `Affixes`, the same structure in src/cformat/op.rs) is a class whose prefix and suffix token lists the builders extend in place.
- **Loops.** The source's loops are `while` loops with invariants. Each is proved against a layout function such as `Joined`, `Terminated`, `Concatenation` or `Csv`.
- **Lemmas.** They state the shapes the layouts promise:
  - no delimiter before the first element or after the last;
  - n - 1 delimiters for n elements;
  - a block that is empty exactly when the slice is;
  - `(x, )` for a one-element tuple;
  - nested wraps.
- **Partners.**
  - The literal-token table is proved injective up to its two collisions, by reading each spelling back with a small lexer.
  - The hexadecimal renderers are proved injective through a decoder.
  - The generic-type filter is characterised by membership and count.
  - `size_hint` is proved equal to the UTF-8 length of the written text.

Modules, one file each:

| file | module | source |
|---|---|---|
| utf8.dfy | `Utf8` | UTF-8 length of text (RFC 3629, section 3) |
| optional.dfy | `Optional` | the optional value the source writes as `Option` |
| sink.dfy | `Sink` | src/fmt/sizer.rs, and `String` as a sink |
| tokens.dfy | `Tokens` | `Token`, `write_token`, the token lists, `get_enclosers` |
| layout.dfy | `Layout` | the sequence layouts shared by every combinator |
| fmt_write.dfy | `FmtWrite` | `ElementOps`, `SliceOps`, `ElementWriter`, `SliceWriter` of src/fmt/write.rs |
| cairo_write.dfy | `CairoWrite` | `CairoWrite` and `CairoWriteSlice` of src/fmt/cairo_write.rs |
| hex.dfy | `Hex` | the `[u8; 32]` and `[u8; 31]` renderers |
| token_table.dfy | `TokenTable` | the `TokenNode` table of src/fmt/macros.rs |
| macros.dfy | `Macros` | the macro renderers of src/fmt/macros.rs |
| cformat_op.dfy | `CFormatOp` | `FormatOp` and its four implementations in src/cformat/op.rs |
| cformat_formatter.dfy | `CFormatter` | `fmt_all`, `fmt_index`, `Delimited`, `ValueOrTuple` of src/cformat/formatter.rs |
| writer.dfy | `Writers` | `CFormatEach`, `CDelimited`, `ValueOrTuple`, `FormattedIter` of src/writer.rs |
| generic_params.dfy | `GenericParams` | the generic-type list of src/generic_param.rs |
| measure.dfy | `SizeHints` | `size_hint` |

The table in src/fmt/macros.rs spells `DivEq` as `/`, the same as `Div`. It also spells
both `Empty` and `EndOfFile` as the empty string. The model keeps both collisions as
written. `TokenTable.FixedSpellingsCollide` proves that they are the only ones.

## Model

| member | source | states |
|---|---|---|
| Utf8.CharLength | src/fmt/sizer.rs:12-15 | a character takes one to four octets, and one exactly when it is ASCII |
| Utf8.LengthAppend | src/fmt/sizer.rs:8-15 | the octet length of a concatenation is the sum of the lengths, so counting write by write counts the whole text |
| Utf8.LengthBounds | src/fmt/sizer.rs:8-15 | a text of n characters takes between n and 4n octets |
| Utf8.AsciiLength | src/fmt/sizer.rs:8-11 | ASCII text takes one octet per character |
| Sink.Sizer.constructor | src/fmt/sizer.rs:19-21 | a new counter has size 0 and has seen nothing |
| Sink.Sizer.WriteStr | src/fmt/sizer.rs:8-11 | the size grows by the string's octet length, the counter stays equal to the octet length of all text seen, and the write succeeds |
| Sink.Sizer.WriteChar | src/fmt/sizer.rs:12-15 | the size grows by the character's octet length (strictly, by at most 4), and the write succeeds |
| Sink.Sizer.Size | src/fmt/sizer.rs:23-25 | the size is the octet length of everything written so far |
| Tokens.ToToken | src/fmt/write.rs:154-170 | a character becomes a `Char` token and a string a `Str` token, spelled as the literal |
| Tokens.MaybeToken | src/cformat/op.rs:147-169 | no delimiter gives no token; a character or string gives the matching token with the same spelling |
| Tokens.GetEnclosers | src/fmt/write.rs:495-503 | the opener is the character itself; the closer differs from it exactly for `(`, `{`, `[` and `<` |
| Tokens.WriteToken | src/fmt/write.rs:142-147 | a `Char` token appends exactly its character, a `Str` token exactly its string |
| Tokens.WriteTokens | src/fmt/write.rs:206-208 | appends the tokens' texts in list order |
| Tokens.WriteTokensRev | src/fmt/write.rs:209-213 | appends the tokens' texts from the last to the first |
| Tokens.ReversedAt | src/cformat/op.rs:180-184 | position k of the reversed list holds the token at n - 1 - k |
| Tokens.ConcatRevIsConcatOfReversed | src/cformat/op.rs:176-185 | `write_tokens_rev` writes what `write_tokens` writes for the reversed list |
| Tokens.ConcatAppend | src/fmt/write.rs:206-208 | writing two lists forward is writing their concatenation |
| Tokens.ConcatRevPush | src/fmt/write.rs:456-458 | a prefix pushed last is written first |
| Tokens.WriteDelimiter | src/fmt/write.rs:409-411 | a present delimiter appends its text, an absent one nothing |
| Tokens.WrapNests | src/fmt/write.rs:429-432 | a later wrap surrounds everything attached before it |
| Tokens.WrapTwice | src/fmt/write.rs:429-432 | `wrap(A, B)` then `wrap(C, D)` renders `C A v B D` |
| Layout.JoinedIsFirstThenPrefixedRest | src/fmt/cairo_write.rs:92-101 | a joined list is its first element, then each later element after one delimiter: none leads, none trails |
| Layout.JoinedWithoutDelimiter | src/fmt/write.rs:404-414 | an empty delimiter gives plain concatenation |
| Layout.JoinedLength | src/fmt/write.rs:404-414 | n elements carry exactly n - 1 delimiters |
| Layout.TerminatedIsJoinedThenTerminator | src/fmt/cairo_write.rs:112-125 | a terminated list is the joined list plus one more terminator: the last element is terminated too |
| Layout.TerminatedLength | src/fmt/cairo_write.rs:112-125 | n elements carry exactly n terminators |
| FmtWrite.ElementOps.constructor | src/fmt/write.rs:345-350 | both lists start empty |
| FmtWrite.ElementOps.PrefixToken | src/fmt/write.rs:456-458 | the token goes on the end of the prefixes; the suffixes are unchanged |
| FmtWrite.ElementOps.SuffixToken | src/fmt/write.rs:459-461 | the token goes on the end of the suffixes; the prefixes are unchanged |
| FmtWrite.ElementOps.Prefix | src/fmt/write.rs:423-425 | the literal's token is pushed, and every rendering gains the literal in front of everything so far |
| FmtWrite.ElementOps.Suffix | src/fmt/write.rs:426-428 | the literal's token is pushed, and every rendering gains the literal after everything so far |
| FmtWrite.ElementOps.Wrap | src/fmt/write.rs:429-432 | one prefix and one suffix are pushed, and every rendering is enclosed by them |
| FmtWrite.ElementOps.Enclose | src/fmt/write.rs:433-436 | wraps with the character and its partner from `get_enclosers` |
| FmtWrite.ElementOps.ApplyPrefixes | src/fmt/write.rs:356-358 | appends the prefixes last-pushed first |
| FmtWrite.ElementOps.ApplySuffixes | src/fmt/write.rs:359-361 | appends the suffixes in push order |
| FmtWrite.ElementOps.Apply | src/fmt/write.rs:363-367 | appends the reversed prefixes, the value's text, then the suffixes |
| FmtWrite.ElementOps.Join | src/fmt/write.rs:352-354 | these lists become the per-element lists of a fresh `SliceOps` with empty outer lists and the given delimiter |
| FmtWrite.SliceOps.constructor | src/fmt/write.rs:381-391 | stores both lists and the delimiter converted by `maybe_token` |
| FmtWrite.SliceOps.Default | src/fmt/write.rs:370-378 | no affixes anywhere and no delimiter |
| FmtWrite.SliceOps.Rendering | src/fmt/write.rs:392-417 | an empty slice still gets the outer affixes, once |
| FmtWrite.SliceOps.PrefixToken | src/fmt/write.rs:465-467 | reaches the outer prefixes only; the element lists are unchanged |
| FmtWrite.SliceOps.SuffixToken | src/fmt/write.rs:468-470 | reaches the outer suffixes only; the element lists are unchanged |
| FmtWrite.SliceOps.Wrap | src/fmt/write.rs:429-432 | a wrap on a sequence goes once around the whole sequence, not around each element |
| FmtWrite.SliceOps.Apply | src/fmt/write.rs:392-417 | appends the outer prefixes, the affixed elements with the delimiter strictly between them, then the outer suffixes |
| FmtWrite.SliceOps.ApplyElements | src/fmt/write.rs:403-415 | appends the first affixed element, then the delimiter (if any) and the next affixed element for every later one |
| FmtWrite.ElementWriter.constructor | src/fmt/write.rs:258-260 | binds the value to the given lists |
| FmtWrite.ElementWriter.Empty | src/fmt/write.rs:261-266 | binds the value to fresh, empty lists |
| FmtWrite.ElementWriter.PrefixToken | src/fmt/write.rs:474-476 | extends the writer's prefixes only |
| FmtWrite.ElementWriter.SuffixToken | src/fmt/write.rs:477-479 | extends the writer's suffixes only |
| FmtWrite.ElementWriter.Apply | src/fmt/write.rs:268-273 | appends the value under its lists |
| FmtWrite.ElementWriter.ToString | src/fmt/write.rs:289-296 | returns exactly the text `apply` writes |
| FmtWrite.SliceWriter.constructor | src/fmt/write.rs:246-248 | binds the slice to the given `SliceOps` |
| FmtWrite.SliceWriter.PrefixToken | src/fmt/write.rs:487-489 | reaches the outer prefixes; the element lists are unchanged |
| FmtWrite.SliceWriter.SuffixToken | src/fmt/write.rs:490-492 | reaches the outer suffixes; the element lists are unchanged |
| FmtWrite.SliceWriter.Apply | src/fmt/write.rs:249-251 | appends the slice under its `SliceOps` |
| FmtWrite.SliceWriter.Len | src/fmt/write.rs:252-254 | the number of elements |
| FmtWrite.Join | src/fmt/write.rs:275-288 | the writer's lists move to the per-element lists; the outer lists start empty; the delimiter is converted by `maybe_token` |
| FmtWrite.PlainAffixes | src/fmt/write.rs:261-266 | elements under empty lists are written as they are |
| CairoWrite.EmptyBlocks | src/fmt/cairo_write.rs:149-161 | an empty block or field list writes nothing, and an empty braced block is `{}` |
| CairoWrite.BlockLines | src/fmt/cairo_write.rs:149-156 | a non-empty block is a newline, the elements separated by newlines, and a final newline |
| CairoWrite.FieldsLines | src/fmt/cairo_write.rs:210-217 | a non-empty field list is a newline and every field followed by `,\n` |
| CairoWrite.TupleSingle | src/fmt/cairo_write.rs:167-169 | one element gives `(x, )` |
| CairoWrite.TupleOther | src/fmt/cairo_write.rs:162-173 | zero or several elements give the parenthesized comma-separated list |
| CairoWrite.EmptyCollections | src/fmt/cairo_write.rs:162-208 | the empty array, span and tuple are `array![]`, `[].span()` and `()` |
| CairoWrite.CsvOfThree | src/fmt/cairo_write.rs:146-148 | three elements are separated by `, ` |
| CairoWrite.CsvLength | src/fmt/cairo_write.rs:146-148 | a list of n elements is 2(n - 1) characters longer than its elements |
| CairoWrite.Cwrite | src/fmt/cairo_write.rs:69-79 | a string value appends itself |
| CairoWrite.CwriteSuffixedStr | src/fmt/cairo_write.rs:12-15 | appends the value, then the string |
| CairoWrite.CwritePrefixed | src/fmt/cairo_write.rs:16-19 | appends the character, then the value |
| CairoWrite.CwritePrefixedStr | src/fmt/cairo_write.rs:20-23 | appends the string, then the value |
| CairoWrite.CwriteSuffixed | src/fmt/cairo_write.rs:24-27 | appends the value, then the character |
| CairoWrite.CwriteWrapped | src/fmt/cairo_write.rs:28-32 | appends prefix, value, suffix |
| CairoWrite.CwriteWrappedStr | src/fmt/cairo_write.rs:33-37 | appends prefix string, value, suffix string |
| CairoWrite.CwriteParenthesized | src/fmt/cairo_write.rs:38-40 | the value in `(` `)` |
| CairoWrite.CwriteBraced | src/fmt/cairo_write.rs:41-43 | the value in `{` `}` |
| CairoWrite.CwriteBracketed | src/fmt/cairo_write.rs:44-46 | the value in `[` `]` |
| CairoWrite.WriteJoined | src/fmt/cairo_write.rs:92-111 | appends the elements joined by the delimiter token |
| CairoWrite.WriteTerminated | src/fmt/cairo_write.rs:112-125 | appends every element followed by the terminator token |
| CairoWrite.CwriteJoin | src/fmt/cairo_write.rs:92-101 | the elements with the string strictly between neighbours |
| CairoWrite.CwriteDelimited | src/fmt/cairo_write.rs:102-111 | the elements with the character strictly between neighbours |
| CairoWrite.CwriteTerminated | src/fmt/cairo_write.rs:112-118 | every element followed by the character |
| CairoWrite.CwriteTerminatedStr | src/fmt/cairo_write.rs:119-125 | every element followed by the string |
| CairoWrite.CwriteConcatenated | src/fmt/cairo_write.rs:127-133 | the elements back to back |
| CairoWrite.CwriteConcatenatedWrapped | src/fmt/cairo_write.rs:135-144 | the elements back to back between the two characters |
| CairoWrite.CwriteCsv | src/fmt/cairo_write.rs:146-148 | the comma-and-space separated list |
| CairoWrite.CwriteBlock | src/fmt/cairo_write.rs:149-156 | nothing for no elements, else a newline and one element per line |
| CairoWrite.CwriteBlockBraced | src/fmt/cairo_write.rs:157-161 | the block in braces |
| CairoWrite.CwriteTuple | src/fmt/cairo_write.rs:162-173 | the tuple layout, `(x, )` for one element |
| CairoWrite.CwriteCsvWrapped | src/fmt/cairo_write.rs:174-178 | the list between the two characters, which appear even for no element |
| CairoWrite.CwriteCsvWrappedStr | src/fmt/cairo_write.rs:179-183 | the list between the two strings |
| CairoWrite.CwriteCsvBraced | src/fmt/cairo_write.rs:184-186 | the list in `{` `}` |
| CairoWrite.CwriteCsvParenthesized | src/fmt/cairo_write.rs:187-189 | the list in `(` `)` |
| CairoWrite.CwriteCsvBracketed | src/fmt/cairo_write.rs:190-192 | the list in `[` `]` |
| CairoWrite.CwriteCsvAngled | src/fmt/cairo_write.rs:193-195 | the list in `<` `>` |
| CairoWrite.CwriteCsvBarred | src/fmt/cairo_write.rs:196-198 | the list between two vertical bars |
| CairoWrite.CwriteArray | src/fmt/cairo_write.rs:199-203 | `array![` list `]` |
| CairoWrite.CwriteSpan | src/fmt/cairo_write.rs:204-208 | `[` list `].span()` |
| CairoWrite.CwriteFields | src/fmt/cairo_write.rs:210-217 | nothing for no elements, else a newline and every element followed by `,\n` |
| CairoWrite.CwriteFieldsBraced | src/fmt/cairo_write.rs:218-222 | the field list in braces |
| Hex.Digit | src/fmt/write.rs:11 | a nibble becomes a hexadecimal digit that reads back as the nibble, a decimal digit exactly below 10 |
| Hex.Unhex | src/cformat/write.rs:7-9 | reads digit pairs back into bytes, one byte per pair |
| Hex.HexDigitsShape | src/cformat/write.rs:7-9 | two digits per byte |
| Hex.HexDigitsAt | src/cformat/write.rs:7-9 | byte k is spelled at positions 2k and 2k + 1, high nibble first |
| Hex.UnhexHexDigits | src/cformat/write.rs:4-22 | reading the digits back gives the bytes |
| Hex.HexDigitsInjective | src/cformat/write.rs:4-22 | equal texts come from equal byte arrays |
| Hex.Hex32Shape | src/cformat/write.rs:4-12 | 66 characters, `0x` and the 64 digits that read back as the bytes |
| Hex.Hex31IsZeroExtended | src/cformat/write.rs:14-22 | the 31-byte form is the 32-byte form of the array with a zero byte in front, so also 66 characters |
| Hex.Hex32Size | src/fmt/write.rs:7-14 | the text is 66 octets |
| Hex.ZeroDigits | src/cformat/write.rs:4-12 | zero bytes give only `0` digits |
| Hex.WriteByteHex | src/fmt/write.rs:11 | appends the byte's two digits |
| Hex.WriteHexDigits | src/fmt/write.rs:10-12 | appends two digits per byte, first byte first |
| Hex.CwriteHex32 | src/fmt/write.rs:7-15 | appends the 32-byte text |
| Hex.CwriteHex31 | src/fmt/write.rs:17-25 | appends the 31-byte text |
| TokenTable.Canonical | src/fmt/macros.rs:139-177 | only `DivEq` and `Empty` are represented by another tag, a fixed one |
| TokenTable.SpellingRoundTrip | src/fmt/macros.rs:101-178 | every fixed spelling reads back to its tag, up to the two collisions |
| TokenTable.FixedSpellingsCollide | src/fmt/macros.rs:101-178 | two fixed tags are spelled alike exactly when they are the same tag up to the collisions |
| TokenTable.ContentPassesThrough | src/fmt/macros.rs:97-100 | identifiers, numbers, strings and bad characters write their text unchanged |
| TokenTable.DivEqSpelledAsDiv | src/fmt/macros.rs:139-140 | `DivEq` and `Div` are both written `/` |
| TokenTable.EmptySpelledAsEndOfFile | src/fmt/macros.rs:145-177 | `Empty` and `EndOfFile` are both written as nothing |
| TokenTable.CanonicalSpelling | src/fmt/macros.rs:139-177 | a tag and its representative are spelled alike |
| TokenTable.WriteTokenNode | src/fmt/macros.rs:94-180 | appends the tag's spelling |
| Macros.ElementsTextIsConcatenation | src/fmt/cairo_write.rs:127-133 | macro elements are written back to back |
| Macros.WrappedEnclosed | src/fmt/macros.rs:69-81 | a subtree is its elements between its bracket and the matching closer |
| Macros.WrappedKindIsVisible | src/fmt/macros.rs:69-81 | the text tells which kind of subtree was written |
| Macros.OperatorRoundTrip | src/fmt/macros.rs:58-67 | an operator is at most one character and reads back as itself |
| Macros.TrailerDetermines | src/fmt/macros.rs:51-54 | the text after a repetition's parenthesis fixes both the comma and the operator |
| Macros.CommaIsNoOperator | src/fmt/macros.rs:51-54 | a comma trailer never looks like a comma-less one |
| Macros.RepetitionTextDetermines | src/fmt/macros.rs:47-56 | two repetitions of the same elements written alike are equal |
| Macros.ParamKindMarker | src/fmt/macros.rs:27-45 | `$name` without a kind, `$name:kind` with one, a trailing `:` for a missing kind |
| Macros.RuleExample | src/fmt/macros.rs:18-25 | the rule `foo` / `[+, 1]` is written `foo => {+1};` |
| Macros.DeclarationLines | src/fmt/macros.rs:6-16 | a declaration with rules puts one rule per line between blank lines in the braces |
| Macros.EmptyDeclaration | src/fmt/macros.rs:6-16 | a declaration without rules has `{\n\n}` as its body |
| Macros.CwriteParamKind | src/fmt/macros.rs:38-45 | appends the kind's value, or nothing for a missing kind |
| Macros.CwriteParam | src/fmt/macros.rs:27-36 | appends `$`, the name and, for a present kind, `:` and the kind |
| Macros.CwriteOperator | src/fmt/macros.rs:58-67 | appends `?`, `*`, `+` or nothing |
| Macros.WriteElementsWrapped | src/fmt/cairo_write.rs:135-144 | appends the elements back to back between the two characters |
| Macros.CwriteRepetition | src/fmt/macros.rs:47-56 | appends `$(`, the elements, `)`, a comma exactly when set, and the operator |
| Macros.CwriteWrappedMacro | src/fmt/macros.rs:69-81 | appends the elements in the subtree's brackets |
| Macros.CwriteElement | src/fmt/macros.rs:83-92 | appends the element's text by its kind |
| Macros.CwriteRule | src/fmt/macros.rs:18-25 | appends lhs, ` => `, the braced rhs and `;` |
| Macros.CwriteDeclaration | src/fmt/macros.rs:6-16 | appends attributes, visibility, `macro `, the name and the block of rules in braces |
| CFormatOp.AffixIsSingleAffixes | src/cformat/op.rs:65-73 | `Affix` writes what an `Affixes` with one prefix and one suffix writes |
| CFormatOp.PrefixIsAffixes | src/cformat/op.rs:75-82 | `Prefix` writes what an `Affixes` with one prefix writes |
| CFormatOp.SuffixIsAffixes | src/cformat/op.rs:84-91 | `Suffix` writes what an `Affixes` with one suffix writes |
| CFormatOp.FormatContainsText | src/cformat/op.rs:53-91 | every operation keeps the value's text intact between what it adds |
| CFormatOp.FormatInto | src/cformat/formatter.rs:53-61 | a `Formatted` value appends its operation's text for the value, whichever of the four operations it holds |
| CFormatOp.FormatAffixes | src/cformat/op.rs:53-63 | appends the prefixes last-attached first, the value, then the suffixes in order (the inherent `Affixes::format` of src/cformat/op.rs:216-220 writes the same) |
| CFormatOp.FormatAffix | src/cformat/op.rs:69-72 | appends prefix, value, suffix |
| CFormatOp.FormatPrefix | src/cformat/op.rs:79-81 | appends the token, then the value |
| CFormatOp.FormatSuffix | src/cformat/op.rs:88-90 | appends the value, then the token |
| CFormatter.FormattedAllAt | src/cformat/formatter.rs:42-47 | element i of the formatted sequence is the operation applied to element i |
| CFormatter.FmtAllIsDelimitedByNothing | src/cformat/formatter.rs:42-47 | `fmt_all` writes what `Delimited` writes with an empty delimiter |
| CFormatter.DelimitedShape | src/cformat/formatter.rs:63-80 | the first element, then the delimiter before each later one; n - 1 delimiters |
| CFormatter.ValueOrTupleMany | src/cformat/formatter.rs:93-101 | two or more elements give `(`, the first, `,` and each later one, `)`, with no space |
| CFormatter.ValueOrTupleParenthesized | src/cformat/formatter.rs:88-101 | only a lone element is written without parentheses |
| CFormatter.FmtAll | src/cformat/formatter.rs:42-47 | appends every element under the operation, in order, nothing between |
| CFormatter.FmtIndex | src/cformat/formatter.rs:48-50 | appends exactly element `index` under the operation |
| CFormatter.WriteDelimited | src/cformat/formatter.rs:67-79 | appends the formatted elements with the delimiter strictly between |
| CFormatter.WriteValueOrTuple | src/cformat/formatter.rs:88-103 | appends `()`, the lone formatted element, or the parenthesized comma list |
| CFormatter.WriteCommaSeparated | src/cformat/formatter.rs:94-100 | appends the formatted elements separated by bare commas |
| Writers.DelimitedWithoutDelimiter | src/writer.rs:213-225 | no delimiter gives the elements back to back |
| Writers.DelimitedLength | src/writer.rs:213-225 | an empty slice writes nothing; n elements carry n - 1 delimiters |
| Writers.DelimitedShape | src/writer.rs:213-225 | the first element, then the delimiter before each later one |
| Writers.AffixesPrefixPush | src/cformat/op.rs:259-262 | a pushed prefix is written before everything attached so far |
| Writers.AffixesSuffixPush | src/cformat/op.rs:263-265 | a pushed suffix is written after everything attached so far |
| Writers.PrefixReachesEveryElement | src/writer.rs:246-249 | a prefix on a `CDelimited` goes before every element, not once before the sequence |
| Writers.SuffixReachesEveryElement | src/writer.rs:250-252 | a suffix on a `CDelimited` goes after every element |
| Writers.ValueOrTupleSingle | src/writer.rs:144-145 | a lone element is written bare, without its operation |
| Writers.ValueOrTupleOther | src/writer.rs:146-150 | no element gives `()`; otherwise the text is parenthesized |
| Writers.ValueOrTuplesCompared | src/writer.rs:142-152 | agrees with the formatter's `ValueOrTuple` on no element, but not on one: that one applies the operation |
| Writers.WriteDelimitedEach | src/writer.rs:214-223 | appends the first element, then the delimiter (if any) and each later element |
| Writers.CFormatEach.constructor | src/writer.rs:155-160 | binds the elements to the given `Affixes` |
| Writers.CFormatEach.Empty | src/writer.rs:162-167 | binds the elements to fresh, empty `Affixes` |
| Writers.CFormatEach.PrefixToken | src/writer.rs:195-197 | extends the per-element prefixes only |
| Writers.CFormatEach.SuffixToken | src/writer.rs:198-200 | extends the per-element suffixes only |
| Writers.CFormatEach.Apply | src/writer.rs:259-263 | appends every element under the `Affixes`, back to back |
| Writers.CDelimited.constructor | src/writer.rs:204-209 | a fresh element writer over the elements and `Affixes`, and the delimiter |
| Writers.CDelimited.PrefixToken | src/writer.rs:247-249 | extends the per-element prefixes only |
| Writers.CDelimited.SuffixToken | src/writer.rs:250-252 | extends the per-element suffixes only |
| Writers.CDelimited.Apply | src/writer.rs:213-225 | appends the delimited text |
| Writers.ValueOrTuple.Cwrite | src/writer.rs:142-152 | appends the lone element bare, or `(`, `apply`, `)` |
| Writers.FormattedIter.constructor | src/writer.rs:40-46 | the cursor starts at index 0 with every element remaining |
| Writers.FormattedIter.Remaining | src/writer.rs:84-86 | zero exactly when the cursor is at or past the end, else the elements left |
| Writers.FormattedIter.Next | src/writer.rs:74-82 | none, with nothing written or moved, exactly at the end; otherwise the element under the cursor formatted, the cursor one on and one fewer remaining |
| GenericParams.TypeNames | src/generic_param.rs:64-69 | at most one name per parameter |
| GenericParams.GenericTypes | src/generic_param.rs:61-74 | a list exactly when the item has a parameter list |
| GenericParams.TypeNamesAppend | src/generic_param.rs:64-69 | the filter keeps the order: the names of a list followed by another are the two name lists in turn |
| GenericParams.TypeNamesSingle | src/generic_param.rs:65-68 | a type parameter gives its name, any other parameter nothing |
| GenericParams.TypeNamesMembers | src/generic_param.rs:64-69 | a name is kept exactly when a type parameter of that name is in the list |
| GenericParams.TypeNamesCount | src/generic_param.rs:64-69 | as many names as type parameters |
| GenericParams.NoTypesNoNames | src/generic_param.rs:64-69 | no type parameter, no name |
| GenericParams.CallTextIsTurbofish | src/generic_param.rs:80-92 | the call form is `::` and the declaration form, or nothing for no list |
| GenericParams.EmptyAngles | src/generic_param.rs:80-92 | a list without type parameters writes `<>` and `::<>` |
| GenericParams.CwriteGenericTypes | src/generic_param.rs:80-85 | nothing without a list, else the names comma-separated in angle brackets |
| GenericParams.CwriteGenericTypesCall | src/generic_param.rs:86-92 | nothing without a list, else `::` and the angled names |
| GenericParams.GenericTypesString | src/generic_param.rs:75-79 | returns exactly what `cwrite_generic_types` writes |
| SizeHints.SizeHint | src/fmt/cairo_write.rs:7-11 | the size hint is the UTF-8 length of the value's text, between one and four octets per character, one per character for ASCII |
| SizeHints.Hex32SizeHint | src/fmt/write.rs:54-58 | the size hint of a 32-byte array is 66 |
| SizeHints.RuleSizeHint | src/fmt/cairo_write.rs:7-11 | the size hint of a macro rule, written to the counter in four steps, is the octet length of its whole text: the sizes of the left side and the right-side elements plus 7 for ` => `, the braces and `;` |
| SizeHints.RuleTextLength | src/fmt/macros.rs:18-25 | a rule's text takes the octets of its left side and right-side elements plus 7 |

## Left out

- `Felt` values (src/fmt/write.rs:39-43, src/fmt/cairo_write.rs:81-85): their text comes from an external big-integer routine. A value is only given by its text through `render`.
- src/utils.rs is not part of this model: it wraps a foreign token-stream library.
- The typed-syntax-node conversions of src/generic_param.rs:8-57 are parsing plumbing. `GenericParam` keeps a name where the source has one; the other payloads (a constant's type, an impl's trait path and constraints) play no part in the rendering.
- In src/writer.rs, the following are not modelled because the text does not define them or does not compile:
  - `CFormater` (100-140);
  - the method without a header at 170-175;
  - `SeqFormatter::to_string` and `Formatter::to_string` (18-35);
  - the `to_string` methods of `CFormatEach` and `CDelimited` (177-181, 227-231). Writing into a fresh string is shown once by `FmtWrite.ElementWriter.ToString`.
- `Writers.CFormatEach.Apply`: `CFormatEach::apply` is called in src/writer.rs but its body is not in the source. It is modelled as `fmt_all`, every element under the `Affixes` back to back.
- `Writers.FormattedIter.constructor`: src/writer.rs:40-46 builds the cursor from `ops()`, which `FormatMany` does not declare, into a field the struct calls `op`. The cursor takes the operation as a parameter.
- The second copies of `Token`, `write_token`, `TokensTrait`, `MaybeTokenTrait` and `get_enclosers` in src/cformat/op.rs behave as the first copies do, and each is modelled once. The `From` conversions (src/cformat/op.rs:125-141) are `Tokens.ToToken`.
- The three copies of the hexadecimal renderers are modelled once. `{:02x}` is the two-digit function `Hex.ByteHex`.
- By-value builders are not separate members. These are:
  - `prefixed`, `suffixed`, `wrapped` and `enclosed`;
  - the `prefix`/`suffix`/`wrap`/`enclose` shortcuts on values and slices (src/fmt/write.rs:59-133).

  Each is `ElementWriter::new_empty` or the in-place builder followed by returning the value, so it writes what the in-place builders give.
- `CWriter` and `CSliceWriter` carry no behaviour. Lifetimes, `Cow`, `SmallVec` capacity and `Box<dyn>` do not change any text.
- `Display` and `write!` plumbing: `Affix`, `Prefix` and `Suffix` are modelled as the token and value writes their format strings produce.
- Sink failure:
  - Both concrete sinks always succeed, so every writer is modelled on an infallible sink and the early return of `?` is not modelled.
  - The `unwrap` in `size_hint` and `to_string` cannot panic.
- `Sink.Sizer.WriteStr`: the count is an unbounded natural number; overflow of `usize` is not modelled.
- `CFormatter.FmtIndex`: an index past the end panics in the source; here it is the caller's obligation.
- `FmtWrite.SliceOps.constructor`: requires the two lists to be distinct objects, as Rust ownership guarantees.
- `TokenTable.Row`: each tag's single `write_str` or `write_char` is one `Token`. The spelling is the token's text on either sink.
- `MacroRule` is declared in the crate's `macros` module (`crate::macros`, imported at src/fmt/macros.rs:1-4), which is not part of this model; its `lhs` is modelled as a `MacroElement`. Attributes and visibility of a declaration are carried as the text they render to.
- `Tokens.WriteTokensRev` states the reversed-order text as `ConcatRev`. Its equality with writing the reversed list forward is the separate lemma `Tokens.ConcatRevIsConcatOfReversed`.
