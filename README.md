# diaparser and dialang in Dafny

This project models the core of **dialang**, a small language for describing
diagrams, and of its front end **diaparser**.

On the diaparser side:

- a lexer turns source text into located tokens. Every character no rule accepts becomes an `Err` token plus one diagnostic;
- a token stream type gives nom its input operations;
- a grammar parses classes (attributes, then methods, each method with an optional body of calls and assignments) and `@SequenceEntrypoint` blocks;
- error recovery turns nom error trees into diagnostics;
- a driver runs the grammar to the end of the input.

On the dialang side:

- the parser tree is cleaned into span-free statements;
- class diagrams are laid out as cells;
- styles are rendered as `key=value;` strings;
- command-line options are folded into flags.

| file | module | what it holds |
|---|---|---|
| `wrappers.dfy` | `Wrappers` | `Option` |
| `diagnostics.dfy` | `Diag` | spans, `RecoveredError`, and the shared error list as a `Sink` object |
| `tokens.dfy` | `Tok` | tokens, located tokens (`TokSpan`), the `Tokens` stream and its nom input operations |
| `lexer.dfy` | `Lexer` | the lexer rules, one loop step, the `many_till` loop as a function and as a method over a `Sink` |
| `nom.dfy` | `Nom` | the nom and nom_supreme behaviour the grammar relies on: error trees, `or`, `append`, `context`, `opt`, `tag`, `take`, `eof` |
| `ast.dfy` | `Ast` | the parser's tree (`Class`, `Method`, `Attribute`, `Expr`, top-level statements) |
| `grammar.dfy` | `Grammar` | one function per production of `statements.rs` |
| `recovery.dfy` | `Recovery` | `non_opt`, `recover_from_error` (as a function and as a method over a `Sink`), `expression_recovery` |
| `parser.dfy` | `Parser`, `ParserScenarios` | `parser`, `recover_err`, `token_parse`, and whole-program scenarios over small inputs |
| `clean_ast.dfy` | `CleanAst` | the cleaned tree and `parserexpr_to_statement` with its loop |
| `class_diag.dfy` | `LibAst`, `ClassDiag` | the tree the diagram generator reads, and the generator over a `Counters` object |
| `style.dfy` | `Styles` | `Style`, `StyleBuilder`, the setters, `build`, and `to_string` as a function and as a method |
| `options.dfy` | `CliOptions` | the `Options` object, its handlers and `load` |

Code that changes state in place is modelled imperatively:

- the error list is a `Sink` whose `ReportError` appends;
- the class-diagram counters `id` and `y` are a `Counters` object;
- `Options` has its four flags as fields.

Each loop and each mutating method is proved equal to a function that states what it computes. The lemmas are stated about those functions.

Line numbers below point into the repository's files. Column offsets are character offsets from the start of the input.

Three behaviours of the code that look unintended are modelled as written:

- The lexer's diagnostic text is misspelled `Unkown (non-ASCII) character` (`diaparser/src/lexer.rs:146`).
- `class { }` produces no diagnostic and ends in a panic. The nameless class fails softly and `many0` swallows that. The statement list is then empty, `eof` fails, and the driver ends in its `expect` panic. This is `ParserScenarios.NamelessClassPanics`.
- An unclosed class such as `class A {` likewise produces no diagnostic and ends in a panic. The class fails softly with its `Closing brack` frame, `many0` swallows that, the list is empty, `eof` fails and the driver ends in its `expect` panic. This is `ParserScenarios.UnclosedClassPanics`.

Three behaviours of the code are worth knowing:

- Every committed failure the grammar produces is a bare `Base` error, so the `Stack` branch of `recover_from_error` is never reached from `statements` (`Grammar.Statements`).
- In the class-diagram generator, `y` after a class is that class's height plus 100, not the old `y` plus the height plus 100 (`dialang/src/class_diag.rs:19-20`, `ClassDiag.ClassMovesY`).
- The fallback at the end of `Options::load` that selects all three diagrams never fires, because the class diagram is selected by default and no handler clears it. `eval` starts false and is only ever cleared, so it always ends false (`dialang/src/options.rs:10-19`, `dialang/src/options.rs:39-43`, `CliOptions.LoadFlagsExactly`).

## Model

| member | source | states |
|---|---|---|
| Diag.Sink.constructor | diaparser/src/recovery_err.rs:14-17 | the shared error list starts empty |
| Diag.Sink.ReportError | diaparser/src/recovery_err.rs:26-28 | `report_error` appends exactly the given error at the end and changes nothing else |
| Tok.NotComment | diaparser/src/token.rs:20-25 | true exactly for the tokens that are not comments |
| Tok.FromStrSpan | diaparser/src/token.rs:73-75 | the located token carries the given token and covers exactly the given span |
| Tok.Compare | diaparser/src/token.rs:139-145 | `Ok` exactly when the stream is non-empty and its first token equals the one asked for |
| Tok.Position | diaparser/src/token.rs:167-171 | the index found is the first token satisfying the predicate; `None` means no token does |
| Tok.SliceIndexOf | diaparser/src/token.rs:173-179 | `Ok(count)` exactly when the stream holds `count` tokens; otherwise how many more are needed, which is positive |
| Tok.Take | diaparser/src/token.rs:197-199 | `take` keeps the first `count` tokens in order and resets the offset to 0 |
| Tok.TakeSplit | diaparser/src/token.rs:201-211 | the prefix holds `count` tokens and keeps the offset; the suffix's offset is its first token's start, or when it is empty the end of the prefix's first token, or the old offset when both halves are empty |
| Tok.TakeSplitJoin | diaparser/src/token.rs:202 | the prefix followed by the suffix is the original token list |
| Tok.TakeIsSplitPrefix | diaparser/src/token.rs:197-211 | `take` and `take_split` give the same prefix tokens and differ only in the offset |
| Tok.TakeSplitSpans | diaparser/src/token.rs:91-101 | the prefix's span starts where the stream's does; a non-empty suffix spans from its first token to the stream's end |
| Tok.LeadingRun | diaparser/src/token.rs:106-113 | the number of leading tokens that start before `next`: all of them start before it, and the token after them does not |
| Tok.ComputeConsumedSpan | diaparser/src/token.rs:103-116 | the `for` loop with its `break` computes the span from the stream's start to the end of the last token starting before `next` |
| Tok.LeadingRunIsFirstStop | diaparser/src/token.rs:106-113 | any index where the run of tokens starting before `next` stops is the run's length, so the loop's `break` point is unique |
| Lexer.KeywordOf | diaparser/src/lexer.rs:86-96 | a word in the keyword table (with `struct` as `class`) is that keyword, and anything else is an identifier |
| Lexer.WordEnd | diaparser/src/lexer.rs:79-84 | the end of the longest run of letters, digits and `_` |
| Lexer.SpaceEnd | diaparser/src/lexer.rs:127 | the end of the longest run of whitespace |
| Lexer.FindFrom | diaparser/src/lexer.rs:105 | `take_until`: the first occurrence of the character, or none at all in the rest of the input |
| Lexer.LineBreakFrom | diaparser/src/lexer.rs:122 | the first line-break character, or the end of the input |
| Lexer.LineEnd | diaparser/src/lexer.rs:122 | `not_line_ending` stops at the first line-break character or the end of the input; it fails exactly when that character is a `\r` not followed by `\n` |
| Lexer.CommentRule | diaparser/src/lexer.rs:122 | matches exactly at `//` when the rest of the line ends properly; it ends where `not_line_ending` stops, and the comment token holds the text between `//` and that point |
| Lexer.WhitespaceRule | diaparser/src/lexer.rs:127 | matches exactly at a whitespace character and gives a comment token |
| Lexer.PaddingRule | diaparser/src/lexer.rs:124-133 | padding makes progress and always gives a comment token |
| Lexer.RawRule | diaparser/src/lexer.rs:102-111 | matches exactly at a backtick that has a closing backtick; the identifier is the text strictly between them and contains no backtick |
| Lexer.OperatorRule | diaparser/src/lexer.rs:32-38 | matches exactly at `=` and gives `Op("=")` covering that one character |
| Lexer.CtrlRule | diaparser/src/lexer.rs:41-60 | matches exactly at one of the eight separator characters and gives that separator |
| Lexer.AnnotationRule | diaparser/src/lexer.rs:62-75 | matches exactly at `@SequenceEntrypoint`; the token's span leaves out the `@` |
| Lexer.IdentRule | diaparser/src/lexer.rs:78-100 | matches exactly at a letter or `_`, takes the longest word and maps it through the keyword table |
| Lexer.TokenRule | diaparser/src/lexer.rs:114-120 | a token is never a comment, an `Err` or the `;` separator |
| Lexer.Rule | diaparser/src/lexer.rs:135 | a match makes progress, stays in the input, and is never `Err` or `;` |
| Lexer.RulesAreExclusive | diaparser/src/lexer.rs:114-135 | at any position at most one of the seven rules matches, so their priority order decides nothing |
| Lexer.LexStep | diaparser/src/lexer.rs:139-151 | one turn makes progress; when a rule matches, its token and end are taken; an `Err` token is produced exactly when no rule matches and exactly when a diagnostic is, and it covers one character with the `Unkown (non-ASCII) character` message |
| Lexer.DropComments | diaparser/src/lexer.rs:154 | the filter keeps no comment, never lengthens the list, and leaves a comment-free list unchanged |
| Lexer.DropCommentsAppend | diaparser/src/lexer.rs:154 | filtering a concatenation is the concatenation of the filtered parts |
| Lexer.DropCommentsSingle | diaparser/src/lexer.rs:154 | one token is kept exactly when it is not a comment |
| Lexer.KeepsNonComments | diaparser/src/lexer.rs:154 | every token that is not a comment survives the filter |
| Lexer.Lex | diaparser/src/lexer.rs:166-171 | the imperative loop returns the lexer's tokens and appends exactly its diagnostics to the shared list |
| Lexer.LexFromUnfold | diaparser/src/lexer.rs:137-153 | one turn of `many_till`: the step's token and report come before those of the rest |
| Lexer.ErrorReportsCount | diaparser/src/lexer.rs:146-148 | one report per `Err` token |
| Lexer.LexFromReports | diaparser/src/lexer.rs:137-153 | the loop's diagnostics are exactly the reports of its `Err` tokens, in order |
| Lexer.DropCommentsKeepsReports | diaparser/src/lexer.rs:154 | dropping comments keeps every `Err` token |
| Lexer.LexedReportsMatchErrTokens | diaparser/src/lexer.rs:137-171 | every lexer diagnostic is the report of an `Err` token in the output, in the same order, and there are as many of each |
| Lexer.LexFromNoSemicolon | diaparser/src/lexer.rs:41-51 | the loop never produces a `;` separator |
| Lexer.DropCommentsSubset | diaparser/src/lexer.rs:154 | every kept token was in the input |
| Lexer.LexedTokenKinds | diaparser/src/lexer.rs:41-51 | the output holds no comment and no `;`, whatever the input |
| Lexer.LexFromSorted | diaparser/src/lexer.rs:137-153 | the tokens lie inside the input, in increasing order, without overlap |
| Lexer.DropCommentsSorted | diaparser/src/lexer.rs:154 | filtering keeps the tokens ordered |
| Lexer.LexFromDropSorted | diaparser/src/lexer.rs:137-155 | the filtered tokens are ordered |
| Lexer.LexedSorted | diaparser/src/lexer.rs:166-171 | `lex` returns tokens inside the input, in increasing order, without overlap |
| Grammar.Ident | diaparser/src/parser/statements.rs:8-21 | succeeds exactly on a leading identifier token, consuming that one token and returning its text; an empty stream is an `Eof` error and any other token is the external `Expected identifier` error, both soft and located at the input |
| Grammar.IdentSpan | diaparser/src/parser/statements.rs:10 | in a stream of increasing offsets, the identifier's span runs from the stream's start to the token's end |
| Grammar.CommittedIdent | diaparser/src/parser/statements.rs:27-30 | without the separator the error is a soft `Tag` error at the input; after the separator a missing identifier is a committed failure; otherwise the identifier after it is returned |
| Grammar.SoftTypedIdent | diaparser/src/parser/statements.rs:102-105 | the assignment's type never commits |
| Grammar.AttributeRule | diaparser/src/parser/statements.rs:23-37 | fails softly exactly when the name is missing; the result's name is the identifier and its type that of the optional `: type` |
| Grammar.AttributeTypeIsCommitted | diaparser/src/parser/statements.rs:27-30 | after `name :` the attribute fails for good unless an identifier follows, and then that identifier is the type |
| Grammar.AttributeList | diaparser/src/parser/statements.rs:47 | `separated_list0` never fails softly, commits only a bare error and leaves no more tokens than its input |
| Grammar.AttributeListTail | diaparser/src/parser/statements.rs:47 | the loop after the first element never fails softly, commits only a bare error and leaves no more tokens than its input |
| Grammar.IdentList | diaparser/src/parser/statements.rs:83 | the argument list always succeeds and leaves no more tokens than its input |
| Grammar.IdentListTail | diaparser/src/parser/statements.rs:83 | the loop after the first argument always succeeds and leaves no more tokens than its input |
| Grammar.FuncCallRule | diaparser/src/parser/statements.rs:73-93 | without a leading identifier it fails softly; it commits exactly when `.` follows the root and no identifier follows the `.`; otherwise a missing `(` or `)` is a soft `Tag` error there, and a success is the call of the root, the optional accessor and the argument list, ending after `)` |
| Grammar.AssignmentPrefix | diaparser/src/parser/statements.rs:99-108 | `name [: type] =` never commits; after a name it succeeds exactly when `=` follows the optional type, and then gives that name and the type exactly when `: type` was there, ending after `=` |
| Grammar.BodyStatement | diaparser/src/parser/statements.rs:97-121 | one body statement succeeds exactly when the call after the optional assignment prefix does, and then is an assignment of that call when the prefix was there and the bare call otherwise; a failure is the call's own |
| Grammar.BodyStatements | diaparser/src/parser/statements.rs:97 | `many0` never fails softly |
| Grammar.MethodBody | diaparser/src/parser/statements.rs:95-124 | the body is always an `ExprList` and never fails softly |
| Grammar.BodyThenClose | diaparser/src/parser/statements.rs:56-59 | the body followed by `}` consumes input |
| Grammar.BodyBlock | diaparser/src/parser/statements.rs:54-60 | fails softly exactly when there is no `{`; after `{` the body is committed |
| Grammar.MethodDefinition | diaparser/src/parser/statements.rs:39-71 | without `fn` it is a soft `Tag` error at the input; otherwise it consumes input, and a failure it commits is a bare error |
| Grammar.MethodDefinitionHead | diaparser/src/parser/statements.rs:41-46 | after `fn`, a missing name or a missing `(` is a soft error |
| Grammar.MethodDefinitionPieces | diaparser/src/parser/statements.rs:39-71 | a parsed method is the name, the parameter list, the optional return type and the optional body, in that order, and ends after the body |
| Grammar.MethodDefinitionCommits | diaparser/src/parser/statements.rs:50-60 | once `)` closes the parameters, a `:` without a type, or a `{` whose body or `}` fails, commits the method |
| Grammar.Attributes | diaparser/src/parser/statements.rs:136 | `many0(attribute)` never fails softly |
| Grammar.Methods | diaparser/src/parser/statements.rs:137 | `many0(method_definition)` never fails softly |
| Grammar.ClassHead | diaparser/src/parser/statements.rs:129-134 | never commits; without `class` it is the `tag class` frame at the input, without a name the `class name` frame after the keyword, without `{` the `Opening brack` frame after the name; otherwise it gives the name and ends after `{` |
| Grammar.ClassDefinition | diaparser/src/parser/statements.rs:126-148 | a head error is the class's error; after the head, a committed attribute or method failure is the class's failure, a missing `}` is the `Closing brack` frame there, and otherwise the class is the name, the attributes and the methods, ending after `}` |
| Grammar.AnnotationEntrypoint | diaparser/src/parser/statements.rs:150-160 | without the annotation it is the `tag sequence_entrypoint` frame at the input; after it, it succeeds or fails exactly as the function call does, and a success is the block holding that call and its span |
| Grammar.AnnotationBlock | diaparser/src/parser/statements.rs:162-166 | the one-alternative choice succeeds, fails softly or commits exactly as its alternative does, with the same error |
| Grammar.TopLevel | diaparser/src/parser/statements.rs:170-173 | a class that parses wins; an annotation block is taken only after a soft class error; when both fail softly the error is their `or` |
| Grammar.TopLevels | diaparser/src/parser/statements.rs:170 | `many0` never fails softly, commits only a bare error and leaves no more tokens than its input |
| Grammar.TopLevelsStep | diaparser/src/parser/statements.rs:170 | a successful statement adds one element and the repetition goes on from its rest |
| Grammar.TopLevelsAtEnd | diaparser/src/parser/statements.rs:170 | at the end of the stream the repetition returns what it collected |
| Grammar.StatementList | diaparser/src/parser/statements.rs:169-178 | the list is wrapped as `Ok(v)` and never fails softly |
| Grammar.Statements | diaparser/src/parser/statements.rs:168-179 | no diagnostic is added; the result is the statement list, or its committed error turned soft, which is always a bare error |
| Recovery.NonOpt | diaparser/src/recovery_err.rs:120-131 | a soft error becomes a committed failure with the same tree; everything else passes through |
| Recovery.Resync | diaparser/src/recovery_err.rs:80-90 | the loop ends on the stream it started from or on the empty suffix of the one-token split |
| Recovery.ResyncLoop | diaparser/src/recovery_err.rs:78-91 | the `while` loop reassigning `rest` and `next_token` computes `Resync` |
| Recovery.ResyncResult | diaparser/src/recovery_err.rs:80-90 | the loop stops at once at `;` or at the end; otherwise it ends on the empty stream at the end of the one token; either way the stream is empty or starts with `;` |
| Recovery.StackRecovery | diaparser/src/recovery_err.rs:73-93 | an empty stream gives itself and its span; otherwise the span from the location's offset to the end of its first token, and the stream after resynchronising |
| Recovery.RecoverFromError | diaparser/src/recovery_err.rs:69-118 | a `Base` error stays an unrecovered error with no diagnostic; a `Stack` always recovers and appends one diagnostic with the last frame's text; an `Alt` that does not recover keeps one error per branch; a recovery appends exactly one diagnostic |
| Recovery.RecoverAlt | diaparser/src/recovery_err.rs:103-116 | the first branch that recovers decides the result; otherwise the branches' errors are collected in order and nothing is reported |
| Recovery.AltRecovery | diaparser/src/recovery_err.rs:103-116 | for an `Alt`, either some branch recovers and every earlier one does not, or none does and the error holds each branch's error in order |
| Recovery.StackRecoveryStream | diaparser/src/recovery_err.rs:71-100 | a `Stack` reports from its last frame's offset to the end of that stream's first token, or at the empty stream itself, and continues from a stream that is empty or starts with `;` |
| Recovery.StackRecoveryWithoutSemicolon | diaparser/src/recovery_err.rs:78-91 | with no `;` in the stream, the recovery continues from the empty stream at the end of the first token |
| Recovery.AsParsed | diaparser/src/recovery_err.rs:100-102 | a recovery is `(Err(ParserError), span)` on the rest, and an unrecovered error is soft |
| Recovery.ExpressionRecovery | diaparser/src/recovery_err.rs:54-67 | success passes through; a soft or committed error goes to `recover_from_error`, and a `Base` error comes back soft without a diagnostic |
| Recovery.RecoverFromErrorInto | diaparser/src/recovery_err.rs:69-118 | the recursive method with its `for` loop, `while` loop and `report_error` on the shared list computes `RecoverFromError` |
| Parser.Locate | diaparser/src/parser.rs:30-36 | a `Base` error is at its own location; a `Stack` is located by its base and an `Alt` by its first branch; an empty `Alt` is the `unwrap` panic |
| Parser.LocateIsLeftmostBase | diaparser/src/parser.rs:30-36 | an error is located exactly at its leftmost base error, and nowhere when it has none |
| Parser.LocateOr | diaparser/src/parser.rs:30-36 | after two soft errors are merged, the driver locates the merge at the first error, unless only the second is an `Alt` |
| Parser.Fallback | diaparser/src/parser.rs:16-23 | the fallback panics exactly when the error has no location or an empty one; otherwise it consumes one token, reports `Unexpected token` from the location's offset to the end of that token, and yields the `ParserError` marker over the same range |
| Parser.Parse | diaparser/src/parser.rs:12-28 | the driver adds no diagnostic or exactly one `Unexpected token` |
| Parser.ParseInto | diaparser/src/parser.rs:12-28 | the driver over the shared list computes `Parse` |
| Parser.TokenParse | diaparser/src/parser.rs:39-47 | an empty token vector is the `ParserError` marker at `0..1`; otherwise it is the driver over all the tokens at offset 0 |
| Parser.TokenParseInto | diaparser/src/parser.rs:39-47 | `token_parse` over the shared list computes `TokenParse` |
| Parser.ParseOnSuccess | diaparser/src/parser.rs:12-28 | when the list parses, nothing is reported; the program is that list exactly when every token was consumed, and otherwise the `expect` panics |
| Parser.ParseOnFailure | diaparser/src/parser.rs:12-28 | when the list fails, its error is a bare located error; an empty location is the `mid > len` panic of `split_at`; otherwise one `Unexpected token` is reported from the location's offset to the end of its first token, and the driver finishes exactly when that was the last token |
| ParserScenarios.NamelessClassPanics | diaparser/src/parser.rs:26-27 | `class { }` ends in the `expect` panic without a diagnostic |
| ParserScenarios.UnclosedClassPanics | diaparser/src/parser.rs:26-27 | `class A {` ends in the `expect` panic without a diagnostic |
| ParserScenarios.EmptyClassDefinition | diaparser/src/parser/statements.rs:126-148 | `class A { }` is one class named `A` with no attributes and no methods, and it takes every token |
| ParserScenarios.EmptyClassStatements | diaparser/src/parser/statements.rs:168-179 | the statement list of `class A { }` is that one class, with every token consumed |
| ParserScenarios.EmptyClassParses | diaparser/src/parser.rs:39-47 | `class A { }` parses to one class statement named `A` with no diagnostic |
| CleanAst.Text | dialang/src/clean_ast.rs:97-100 | an optional spanned text keeps its presence and its text, and loses its span |
| CleanAst.CleanTopLevel | dialang/src/clean_ast.rs:45-50 | a class stays a class and an annotated block stays an annotated block, each cleaned |
| CleanAst.CleanAnnotatedBlock | dialang/src/clean_ast.rs:52-68 | a sequence entry point becomes that annotation over exactly one call expression, its call |
| CleanAst.CleanAttribute | dialang/src/clean_ast.rs:91-106 | the name's text, and the type's text when there is one |
| CleanAst.CleanAttributes | dialang/src/clean_ast.rs:76-78 | one cleaned attribute per attribute, in order |
| CleanAst.CleanClass | dialang/src/clean_ast.rs:70-89 | the name's text, then the attributes and the methods cleaned one for one, in order |
| CleanAst.CleanMethods | dialang/src/clean_ast.rs:80-82 | one cleaned method per method, in order |
| CleanAst.CleanMethod | dialang/src/clean_ast.rs:108-135 | name, parameters in order and return type as texts; a missing body gives no statements, and a present body gives its conversion |
| CleanAst.Texts | dialang/src/clean_ast.rs:149 | the argument texts in order |
| CleanAst.ParserExprToStatement | dialang/src/clean_ast.rs:137-173 | the recursive method, with the `for` loop that extends `v`, computes the conversion `ToStatements` |
| CleanAst.ToStatementsPrefixSplit | dialang/src/clean_ast.rs:164-170 | converting a list splits at any point into converting its two parts |
| CleanAst.ToStatementsPrefixOfPrefix | dialang/src/clean_ast.rs:164-170 | the first `k` rounds of the loop over a list equal the whole loop over its first `k` elements |
| CleanAst.ToStatementsConcat | dialang/src/clean_ast.rs:164-170 | converting `a + b` as one list gives the conversion of `a` followed by that of `b` |
| CleanAst.BodyConvertsElementwise | dialang/src/clean_ast.rs:139-170 | a body of calls and assignments of calls becomes exactly one statement per element, in order; an assignment's type is dropped |
| ClassDiag.AttributeTexts | dialang/src/class_diag.rs:37-52 | one line per attribute |
| ClassDiag.AttributeTextsElementwise | dialang/src/class_diag.rs:39-49 | line `i` is `name: type`, or `name` alone, for attribute `i` |
| ClassDiag.GetAttributes | dialang/src/class_diag.rs:37-52 | the push loop computes `AttributeTexts` |
| ClassDiag.FoldAsWrittenStaysEmpty | dialang/src/class_diag.rs:79-85 | the fold as written never leaves the empty accumulator |
| ClassDiag.ParamStringAsWrittenIsEmpty | dialang/src/class_diag.rs:71-86 | `get_param_string` as written renders every parameter list as the empty string |
| ClassDiag.FoldJoinFrom | dialang/src/class_diag.rs:79-85 | the corrected fold from a non-empty accumulator appends `, ` and each text |
| ClassDiag.FoldJoinIsJoin | dialang/src/class_diag.rs:71-86 | with non-empty texts, the corrected fold is the texts separated by `, ` |
| ClassDiag.OneParameterIsDropped | dialang/src/class_diag.rs:71-86 | one parameter `x` renders as `x` with the correction and as the empty string as written |
| ClassDiag.MethodTexts | dialang/src/class_diag.rs:54-69 | one line per method |
| ClassDiag.MethodTextsElementwise | dialang/src/class_diag.rs:56-66 | line `i` is `name(): ret`, or `name()`, for method `i`, because the as-written parameter string is always empty |
| ClassDiag.GetMethods | dialang/src/class_diag.rs:54-69 | the push loop computes `MethodTexts` |
| ClassDiag.AttributeCells | dialang/src/class_diag.rs:99-110 | row `k` is the attribute row with id `id + 1 + k`, the text of attribute `k`, the class as parent and `y = 26 + 26k` |
| ClassDiag.MethodCells | dialang/src/class_diag.rs:117-131 | row `k` is the method row with id `id + a + 2 + k`, the text of method `k`, the class as parent and `y = 26 + 26a + 8 + 26k` |
| ClassDiag.Counters.constructor | dialang/src/class_diag.rs:6-7 | the counters start with the given id and `y` |
| ClassDiag.MakeClass | dialang/src/class_diag.rs:88-149 | the loops lay the rows out top to bottom and the title goes in front; the height is `26 + 26a + 8 + 26m`; the id counter moves past the last row, `a + m + 2` on, and `y` is untouched |
| ClassDiag.ClassCellsLayout | dialang/src/class_diag.rs:95-147 | a class takes `a + m + 2` consecutive ids; the title comes first, hangs from the root `class-diag-1` and carries width 230 and the class height; every other cell hangs from the title |
| ClassDiag.ClassDiagFromTokens | dialang/src/class_diag.rs:12-35 | the recursive method over the shared counters computes the drawing and the counters of `DiagFrom` |
| ClassDiag.ClassDiagClass | dialang/src/class_diag.rs:16-23 | a class is drawn at `x = 15` and the old `y`; the id counter moves past its cells; the new `y` is its height plus 100 |
| ClassDiag.ClassDiagList | dialang/src/class_diag.rs:24-31 | the `for` loop draws the elements in order, threading the counters |
| ClassDiag.ClassDiagElement | dialang/src/class_diag.rs:26-27 | one element of a list is drawn as its expression |
| ClassDiag.MakeClassDiagInto | dialang/src/class_diag.rs:5-10 | the diagram drawn from id 2 and `y = 25` |
| ClassDiag.DiagIdsConsecutive | dialang/src/class_diag.rs:12-35 | a drawing numbers its cells `id, id + 1, …` in output order, and the counter ends just past the last one |
| ClassDiag.DiagListIdsConsecutive | dialang/src/class_diag.rs:24-31 | the same for the first `k` elements of a list |
| ClassDiag.DiagElementIdsConsecutive | dialang/src/class_diag.rs:26-27 | the same for one element of a list |
| ClassDiag.ClassMovesY | dialang/src/class_diag.rs:19-20 | after a class, `y` is that class's height plus 100, whatever it was before; the title sits at the old `y` and `x = 15` |
| Styles.BoolToNum | dialang/src/style.rs:299-305 | the number is 0 or 1, and 1 exactly for `true` |
| Styles.NatText | dialang/src/style.rs:43 | an unsigned number's text is a non-empty run of decimal digits that denotes the number, without leading zeros |
| Styles.IntText | dialang/src/style.rs:81 | a signed number's text starts with `-` exactly when it is negative, followed by the digits of its magnitude |
| Styles.NamesAreDistinct | dialang/src/style.rs:358-417 | the displays of base styles, alignments, vertical alignments and relative positions tell their values apart |
| Styles.EmitOpt | dialang/src/style.rs:42-44 | one `if let Some` step appends `key=value;` exactly when the field is set, and the entries written so far grow by that entry |
| Styles.PointsString | dialang/src/style.rs:107-114 | the fold writes `[`, then `[x,y],` per point, pops the trailing comma when there was a point, and closes with `]` |
| Styles.HeadString | dialang/src/style.rs:38-44 | the base style's `name;` when set, then `fontStyle=…;` when set |
| Styles.ColourString | dialang/src/style.rs:46-70 | `strokeColor=none;` for text, `strokeWidth=…;` for a line when set, `fillColor=none;` for lines and text, and nothing without a base style |
| Styles.AlignString | dialang/src/style.rs:72-86 | the alignment and spacing entries that are set, in source order |
| Styles.LabelString | dialang/src/style.rs:88-103 | the spacing-right, overflow, rotatable (as a digit) and label-position entries that are set, in source order |
| Styles.ContainerString | dialang/src/style.rs:119-134 | the port-constraint, child-layout, horizontal and start-size entries that are set, in source order |
| Styles.ResizeString | dialang/src/style.rs:136-148 | the horizontal-stack, resize-parent and resize-parent-max entries that are set, in source order |
| Styles.ClosingString | dialang/src/style.rs:150-162 | the resize-last, collapsible and margin-bottom entries that are set, in source order |
| Styles.ToString | dialang/src/style.rs:36-165 | the string built section by section is the rendering `Render`, for every style that reaches no `todo!` |
| Styles.WithBaseStyle | dialang/src/style.rs:529-533 | the builder's `base_style` becomes the given value and every other field keeps its value |
| Styles.WithStrokeColor | dialang/src/style.rs:535-539 | the builder's `stroke_color` becomes the given value and every other field keeps its value |
| Styles.WithStrokeWidth | dialang/src/style.rs:541-545 | the builder's `stroke_width` becomes the given value and every other field keeps its value |
| Styles.WithFillColor | dialang/src/style.rs:547-551 | the builder's `fill_color` becomes the given value and every other field keeps its value |
| Styles.WithAlignment | dialang/src/style.rs:553-557 | the builder's `alignment` becomes the given value and every other field keeps its value |
| Styles.WithVerticalAlignment | dialang/src/style.rs:559-563 | the builder's `vertical_alignment` becomes the given value and every other field keeps its value |
| Styles.WithSpacingTop | dialang/src/style.rs:565-569 | the builder's `spacing_top` becomes the given value and every other field keeps its value |
| Styles.WithSpacingLeft | dialang/src/style.rs:571-575 | the builder's `spacing_left` becomes the given value and every other field keeps its value |
| Styles.WithSpacingRight | dialang/src/style.rs:577-581 | the builder's `spacing_right` becomes the given value and every other field keeps its value |
| Styles.WithRotatable | dialang/src/style.rs:583-587 | the builder's `rotatable` becomes the given value and every other field keeps its value |
| Styles.WithLabelPosition | dialang/src/style.rs:589-593 | the builder's `label_position` becomes the given value and every other field keeps its value |
| Styles.WithPoints | dialang/src/style.rs:595-599 | the builder's `points` becomes the given list and every other field keeps its value |
| Styles.WithPortConstraint | dialang/src/style.rs:601-605 | the builder's `port_constraint` becomes the given value and every other field keeps its value |
| Styles.WithOverflow | dialang/src/style.rs:607-611 | the builder's `overflow` becomes the given value and every other field keeps its value |
| Styles.WithFontStyle | dialang/src/style.rs:613-617 | the builder's `font_style` becomes the given value and every other field keeps its value |
| Styles.WithChildLayout | dialang/src/style.rs:619-623 | the builder's `child_layout` becomes the given value and every other field keeps its value |
| Styles.WithHorizontal | dialang/src/style.rs:625-629 | the builder's `horizontal` becomes the given value and every other field keeps its value |
| Styles.WithStartSize | dialang/src/style.rs:631-635 | the builder's `start_size` becomes the given value and every other field keeps its value |
| Styles.WithHorizontalStack | dialang/src/style.rs:637-641 | the builder's `horizontal_stack` becomes the given value and every other field keeps its value |
| Styles.WithResizeParent | dialang/src/style.rs:643-647 | the builder's `resize_parent` becomes the given value and every other field keeps its value |
| Styles.WithResizeParentMax | dialang/src/style.rs:649-653 | the builder's `resize_parent_max` becomes the given value and every other field keeps its value |
| Styles.WithResizeLast | dialang/src/style.rs:655-659 | the builder's `resize_last` becomes the given value and every other field keeps its value |
| Styles.WithCollapsible | dialang/src/style.rs:661-665 | the builder's `collapsible` becomes the given value and every other field keeps its value |
| Styles.WithMarginBottom | dialang/src/style.rs:667-671 | the builder's `margin_bottom` becomes the given value and every other field keeps its value |
| Styles.WithShape | dialang/src/style.rs:702-706 | the builder's `shape` becomes the given value and every other field keeps its value |
| Styles.WithVerticalLabelPosition | dialang/src/style.rs:708-712 | the builder's `vertical_label_position` becomes the given value and every other field keeps its value |
| Styles.WithHtml | dialang/src/style.rs:714-718 | the builder's `html` becomes the given value and every other field keeps its value |
| Styles.WithOutlineConnect | dialang/src/style.rs:720-724 | the builder's `outline_connect` becomes the given value and every other field keeps its value |
| Styles.WithRounded | dialang/src/style.rs:726-730 | the builder's `rounded` becomes the given value and every other field keeps its value |
| Styles.WithWhiteSpace | dialang/src/style.rs:732-736 | the builder's `white_space` becomes the given value and every other field keeps its value |
| Styles.WithEntryX | dialang/src/style.rs:738-742 | the builder's `entryx` becomes the given value and every other field keeps its value |
| Styles.WithEntryY | dialang/src/style.rs:744-748 | the builder's `entryy` becomes the given value and every other field keeps its value |
| Styles.WithEntryDx | dialang/src/style.rs:750-754 | the builder's `entrydx` becomes the given value and every other field keeps its value |
| Styles.WithEntryDy | dialang/src/style.rs:756-760 | the builder's `entrydy` becomes the given value and every other field keeps its value |
| Styles.BuildEmbed | dialang/src/style.rs:673-700 | every style is what `build` makes of some builder: the one holding its fields |
| Styles.BuildForgetsBuilderOnly | dialang/src/style.rs:673-700 | `build` drops exactly the ten builder-only fields and keeps the other twenty-four |
| Styles.BuilderOnlySettersInvisible | dialang/src/style.rs:702-760 | the ten builder-only setters never change the built style, hence never its string |
| Styles.EmptyBuilderRendersEmpty | dialang/src/style.rs:490-527 | a builder with nothing set renders as the empty string |
| Styles.BaseStyleFirst | dialang/src/style.rs:38-40 | when the base style is set, the string starts with its name and `;` |
| Styles.RenderIsEntries | dialang/src/style.rs:36-165 | the string is the texts of all sections' entries, one after another |
| Styles.ColourEntriesByBase | dialang/src/style.rs:46-70 | no colour entries without a base style or for a swimlane; `strokeColor=none;fillColor=none;` for text; the stroke width when set and `fillColor=none;` for a line |
| Styles.PointEntriesByBase | dialang/src/style.rs:105-117 | the points are written exactly for lines and text, as one `points=…;` entry |
| Styles.BoolEntryDigits | dialang/src/style.rs:97-98 | a set boolean is written as `1` or `0` |
| Styles.PointsTextSmall | dialang/src/style.rs:107-114 | no points render as `[]` and one point as `[[x,y]]` |
| Styles.DefaultLine | dialang/src/style.rs:167-184 | `default_line` sets exactly the line base, stroke width 1, left/middle alignment, spacings -1, 3 and 3, not rotatable, label on the right and the east-west port constraint |
| Styles.DefaultSwimlane | dialang/src/style.rs:204-225 | `default_swimlane` sets exactly the swimlane base, font style 1, center/top alignment, a horizontal stack layout of start size 26 and the resize, collapse and margin settings |
| Styles.DefaultLineSections | dialang/src/style.rs:167-184 | the entries `default_line` renders, section by section |
| Styles.DefaultSwimlaneSections | dialang/src/style.rs:204-225 | the entries `default_swimlane` renders, section by section |
| Styles.DefaultLineRenders | dialang/src/style.rs:181 | `default_line` renders as `line;strokeWidth=1;fillColor=none;align=left;verticalAlign=middle;spacingTop=-1;spacingLeft=3;spacingRight=3;rotatable=0;labelPosition=right;points=[];portConstraint=eastwest;`, the string its `debug_assert_eq!` expects, stated piece by piece |
| Styles.DefaultSwimlaneRenders | dialang/src/style.rs:222 | `default_swimlane` renders as `swimlane;fontStyle=1;align=center;verticalAlign=top;childLayout=stackLayout;horizontal=1;startSize=26;horizontalStack=0;resizeParent=1;resizeParentMax=0;resizeLast=0;collapsible=1;marginBottom=0;`, the string its `debug_assert_eq!` expects, stated piece by piece |
| CliOptions.LetterStepFlag | dialang/src/options.rs:62-70 | a letter sets a diagram's flag exactly when it is that diagram's letter, clears `eval` otherwise or leaves it, and never clears a flag |
| CliOptions.LettersFlag | dialang/src/options.rs:53-55 | after a group of letters a diagram's flag is set exactly when it was set before or its letter is in the group |
| CliOptions.ArgStepFlag | dialang/src/options.rs:30-36 | after one argument a diagram's flag is set exactly when it was set or the argument requests it (its long name, or a short group holding its letter) |
| CliOptions.ArgsFoldFlag | dialang/src/options.rs:29-37 | after the loop a diagram's flag is set exactly when it was set before or some argument requests it; no flag is ever cleared |
| CliOptions.ArgsFoldPrefixGrows | dialang/src/options.rs:29-37 | the flags only grow as the loop goes on: what any prefix of the arguments sets stays set |
| CliOptions.LoadFlagsExactly | dialang/src/options.rs:22-46 | the fallback never fires, `eval` always ends false, the class diagram is always selected, and the others exactly when some argument requests them |
| CliOptions.Options.constructor | dialang/src/options.rs:10-19 | only the class diagram is selected and `eval` is false |
| CliOptions.Options.Fail | dialang/src/options.rs:72-75 | `eval` is cleared and the three diagram flags are kept |
| CliOptions.Options.Help | dialang/src/options.rs:77-80 | `eval` is cleared and the three diagram flags are kept |
| CliOptions.Options.Class | dialang/src/options.rs:82-84 | the class diagram flag is set and nothing else changes |
| CliOptions.Options.Comm | dialang/src/options.rs:86-88 | the communication diagram flag is set and nothing else changes |
| CliOptions.Options.Seq | dialang/src/options.rs:90-92 | the sequence diagram flag is set and nothing else changes |
| CliOptions.Options.HandleSingleLetterArg | dialang/src/options.rs:62-70 | the object's flags move by one letter step |
| CliOptions.Options.HandleArg | dialang/src/options.rs:48-60 | a single-dash argument is applied letter by letter after the dash; a double dash or no dash fails |
| CliOptions.Options.HandleArgument | dialang/src/options.rs:30-36 | the four long names are handled by name and anything else by `handle_arg` |
| CliOptions.Load | dialang/src/options.rs:22-46 | a fresh object whose flags are those of `LoadFlags` on the arguments |

## Left out

- Printing is not modelled: `fail`'s message, the help text read by `include_str!`, and all other console output. `Fail` and `Help` change only the flags.
- Command-line arguments are a parameter of `CliOptions.Load` instead of being read from the environment; as in the source, the first element is the program's own name and goes through the same match.
- The diagram templates that `class_diag.rs` reads with `include_str!` and fills in by text replacement are modelled as `Cell` values carrying the replaced fields, not as XML text.
- Floating point is not modelled: a point's coordinates are kept as their decimal texts, and the builder-only `f64` fields as `real`. The consequence is that `Styles.PointsString` takes the texts of the coordinates as given.
- `Styles.NatText`, `Styles.IntText` and the numeric setters: the `u32` and `i32` fields are unbounded `nat` and `int`, so no wrap-around or range limit is modelled.
- `ClassDiag.MakeClass`, `ClassDiag.ClassDiagFromTokens` and the other generator members: the `u32` id and `y` counters are unbounded `nat`, so their wrap-around is not modelled.
- nom's `Incomplete` outcome is not modelled: every combinator used works on complete input and never returns it.
- The `External` error kind of nom_supreme carries no source error message here; only its location and kind are kept.
- nom's `alt`/`or` keeps one of the two error trees depending on the capacity of an internal vector; the model always keeps the order the grammar's combinators produce, as `Parser.LocateOr` states.
- The `Nom` module models the behaviour of the nom and nom_supreme libraries, not code of this repository, and so has no rows in the table above.
- The lexer's `recover_err` is modelled as the current position; its span text is not rebuilt.
- `tokenize`, `seq_diag.rs`, `lib.rs` and `main.rs` are not part of this model; neither are the communication and sequence diagram generators.
- The other style defaults (`default_text`, `default_actor`, `default_seq_class`, `default_lifetime_line`, `default_call_arrow`, `default_call_text`, `default_return_arrow`, `default_return_text`) are not modelled. Several of their `debug_assert_eq!` strings (`dialang/src/style.rs:236`, `248`, `262`, `271`, `280`, `289`) do not match what `to_string` writes for them.
- ClassDiag.DiagFrom, ClassDiag.ClassDiagFromTokens, ClassDiag.MakeClassDiagInto and ClassDiag.ClassDiagList: they require `ClassDiag.Drawable`. That excludes the `todo!()` on `Expr::Error` (`dialang/src/class_diag.rs:32`) and the `unreachable!()` arms (`dialang/src/class_diag.rs:33`, `47`, `64`), so those panics are not modelled as outcomes. The generator is described only for trees made of classes and lists whose attributes and methods have the expected shapes.
- ClassDiag.AttributeTexts, ClassDiag.GetAttributes, ClassDiag.MethodTexts and ClassDiag.GetMethods: they require `ClassDiag.AllAttributes` or `ClassDiag.AllMethods`, which exclude the `unreachable!()` arms of `get_attributes` and `get_methods` (`dialang/src/class_diag.rs:47`, `64`); those panics are not modelled as outcomes.
- A `todo!()` in `to_string` is not modelled as a panic: `Styles.Render` and `Styles.ToString` require `Styles.Renderable`, which holds exactly when no `todo!()` is reached.
- Grammar.AttributeList, Grammar.AttributeListTail, Grammar.BodyStatements, Grammar.Attributes, Grammar.Methods and Grammar.TopLevels: their contracts state only that they never fail softly, commit only a bare base error, and leave no more tokens than their input. They do not state that the rest is a suffix of the input, and the items they collect are not described element by element.
- Grammar.IdentList and Grammar.IdentListTail: their contracts state only that they always succeed and leave no more tokens than their input; the identifiers they collect are not described.
- Grammar.MethodDefinition: its own contract states the missing-`fn` error and that a committed failure is bare; the other cases are stated by `Grammar.MethodDefinitionHead`, `Grammar.MethodDefinitionPieces` and `Grammar.MethodDefinitionCommits`, and a missing `)` after the parameters is not characterised.
- ClassDiag.AttributeTexts and ClassDiag.MethodTexts: their own contracts state only the number of lines; the text of each line is stated by `ClassDiag.AttributeTextsElementwise` and `ClassDiag.MethodTextsElementwise`.
- CliOptions.LetterStepFlag and CliOptions.ArgsFoldFlag: for `eval` they state only that it is never set; the exact arguments that clear it are not characterised.
- Styles.ColourEntriesByBase: states the colour section on its own; the whole string is related to it through `Styles.RenderIsEntries`.

## Findings

| source | as written | input that shows it | evidently intended | confidence | as-written member | corrected member |
|---|---|---|---|---|---|---|
| dialang/src/class_diag.rs:79-85 | the fold in `get_param_string` returns its accumulator unchanged while it is empty, and it starts empty, so every parameter list renders as the empty string | a method with one parameter `x` is drawn as `m()` instead of `m(x)` | the parameter texts joined by `, ` | not executed | ClassDiag.OneParameterIsDropped | ClassDiag.FoldJoinIsJoin |

The diagram itself keeps the behaviour as written: `ClassDiag.MethodText` uses the as-written parameter string, so every method line is drawn as `name()`. The corrected join is proved on its own and is not used by the generator.
