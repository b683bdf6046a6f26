/**
 * The driver (diaparser/src/parser.rs): `statements` followed by `eof`, with
 * a last-resort "Unexpected token" recovery when `statements` fails, and the
 * entry point over a token vector.
 *
 * Both panics of the driver are explicit outcomes: the `expect` on a stream
 * that is not fully consumed, and the out-of-range split when the error is
 * located at an empty stream (`take_split(1)` calls `split_at(1)`).
 */
module Parser {
  import opened Wrappers
  import opened Diag
  import opened Tok
  import opened Nom
  import opened Ast
  import opened Recovery
  import opened Grammar

  const UnexpectedToken: string := "Unexpected token"
  const Unrecovered: string := "Unrecovered error happened in parser"
  /** The bounds assertion of `split_at(1)` on an empty slice (`mid > len`). */
  const SplitPastEnd: string := "mid > len"
  const EmptyAlt: string := "called `Option::unwrap()` on a `None` value"

  type Program = Spanned<Parsed<seq<Spanned<TopLevelStatement>>>>

  /** How a run of the driver ends: with the parsed program, or in a panic with its message. */
  datatype Outcome = Finished(program: Program) | Panicked(message: string)

  /**
   * `recover_err`: the stream an error is located at, following the base of
   * a `Stack` and the first branch of an `Alt`; `None` where `unwrap`
   * panics on an `Alt` with no branches.
   */
  function Locate(e: ErrTree): (r: Option<Tokens>)
    ensures e.Base? ==> r == Some(e.location)
    ensures e.Stack? ==> r == Locate(e.base)
    ensures e.Alt? && |e.branches| == 0 ==> r.None?
    ensures e.Alt? && |e.branches| > 0 ==> r == Locate(e.branches[0])
  {
    match e
    case Base(location, _) => Some(location)
    case Stack(base, _) => Locate(base)
    case Alt(v) => if |v| == 0 then None else Locate(v[0])
  }

  /** The leftmost `Base` of a tree, found by walking down the first child. */
  function LeftmostBase(e: ErrTree): Option<ErrTree>
  {
    match e
    case Base(_, _) => Some(e)
    case Stack(base, _) => LeftmostBase(base)
    case Alt(v) => if |v| == 0 then None else LeftmostBase(v[0])
  }

  /** `recover_err` locates an error at its leftmost base error. */
  lemma {:induction false} LocateIsLeftmostBase(e: ErrTree)
    ensures Locate(e).Some? <==> LeftmostBase(e).Some?
    ensures LeftmostBase(e).Some? ==>
      LeftmostBase(e).value.Base? && Locate(e) == Some(LeftmostBase(e).value.location)
  {
    match e
    case Base(_, _) =>
    case Stack(base, _) => LocateIsLeftmostBase(base);
    case Alt(v) => if |v| > 0 { LocateIsLeftmostBase(v[0]); }
  }

  /**
   * Merging two soft errors with `or` changes where the driver locates them:
   * the first error is kept in front unless only the second is an `Alt`,
   * whose branches then come first.
   */
  lemma LocateOr(e1: ErrTree, e2: ErrTree)
    requires e1.Alt? ==> |e1.branches| > 0
    requires e2.Alt? ==> |e2.branches| > 0
    ensures !e1.Alt? && e2.Alt? ==> Locate(Or(e1, e2)) == Locate(e2)
    ensures e1.Alt? || !e2.Alt? ==> Locate(Or(e1, e2)) == Locate(e1)
  {
    match (e1, e2)
    case (Alt(s1), Alt(s2)) => assert (s1 + s2)[0] == s1[0];
    case (Alt(s1), _) => assert (s1 + [e2])[0] == s1[0];
    case (_, Alt(s2)) => assert (s2 + [e1])[0] == s2[0];
    case _ =>
  }

  /**
   * The fallback of `parser` for a failed `statements`: one token at the
   * error's location is consumed and reported as unexpected, and the
   * program is the `ParserError` marker over the span from the location's
   * offset to the end of that token.
   */
  function Fallback(e: ErrTree, diags: seq<Diagnostic>): (r: (Result, seq<Diagnostic>))
    ensures r.0.Stopped? <==> Locate(e).None? || |Locate(e).value.toks| == 0
    ensures r.0.Stopped? ==> r.1 == diags
    ensures r.0.Continued? ==>
      var (rest, first) := TakeSplit(Locate(e).value, 1);
      r.0 == Continued(rest, Spanned(ParserError, StreamSpan(first))) &&
      r.1 == diags + [Diagnostic(StreamSpan(first), UnexpectedToken)]
  {
    match Locate(e)
    case None => (Stopped(EmptyAlt), diags)
    case Some(loc) =>
      if |loc.toks| == 0 then (Stopped(SplitPastEnd), diags)
      else
        var (rest, first) := TakeSplit(loc, 1);
        var span := StreamSpan(first);
        (Continued(rest, Spanned(ParserError, span)), diags + [Diagnostic(span, UnexpectedToken)])
  }

  /** The first half of the driver's `pair`: the rest of the stream and the program, or a panic. */
  datatype Result = Continued(rest: Tokens, program: Program) | Stopped(message: string)

  /** `parser`: `statements` (or the fallback), then `eof`, whose failure is the `expect` panic. */
  function Parse(input: Tokens, diags: seq<Diagnostic>): (r: (Outcome, seq<Diagnostic>))
    ensures r.1 == diags ||
      (|r.1| == |diags| + 1 && r.1 == diags + [Diagnostic(r.1[|diags|].span, UnexpectedToken)])
  {
    var (s, d) := Statements(input, diags);
    var (first, d') :=
      if s.Done? then (Continued(s.rest, s.value), d)
      else Fallback(s.err, d);
    match first
    case Stopped(message) => (Panicked(message), d')
    case Continued(rest, program) =>
      if Eof(rest).Done? then (Finished(program), d') else (Panicked(Unrecovered), d')
  }

  /**
   * `parser` as it runs: `statements` with its recovery reporting to the
   * shared sink, then the fallback's `report_error`, then `eof`.
   */
  method ParseInto(input: Tokens, sink: Sink) returns (outcome: Outcome)
    modifies sink
    ensures (outcome, sink.diags) == Parse(input, old(sink.diags))
  {
    var list := StatementList(input);
    var s: PResult<Program>;
    if list.Done? {
      s := list;
    } else {
      var rec := RecoverFromErrorInto(list.err, sink);
      s := AsParsed(rec);
    }
    assert (s, sink.diags) == Statements(input, old(sink.diags));
    var first: Result;
    if s.Done? {
      first := Continued(s.rest, s.value);
    } else {
      var loc := Locate(s.err);
      if loc.None? {
        first := Stopped(EmptyAlt);
      } else if |loc.value.toks| == 0 {
        first := Stopped(SplitPastEnd);
      } else {
        var (rest, token) := TakeSplit(loc.value, 1);
        var span := StreamSpan(token);
        sink.ReportError(Diagnostic(span, UnexpectedToken));
        first := Continued(rest, Spanned(ParserError, span));
      }
    }
    match first {
      case Stopped(message) =>
        outcome := Panicked(message);
      case Continued(rest, program) =>
        outcome := if Eof(rest).Done? then Finished(program) else Panicked(Unrecovered);
    }
  }

  /** `token_parse` over the shared sink. */
  method TokenParseInto(tokens: seq<TokSpan>, sink: Sink) returns (outcome: Outcome)
    modifies sink
    ensures (outcome, sink.diags) == TokenParse(tokens, old(sink.diags))
  {
    if |tokens| == 0 {
      outcome := Finished(Spanned(ParserError, Range(0, 1)));
    } else {
      outcome := ParseInto(NewTokens(tokens), sink);
    }
  }

  /** `token_parse`: an empty vector is the `ParserError` marker at `0..1`; otherwise `parser` over all tokens. */
  function TokenParse(tokens: seq<TokSpan>, diags: seq<Diagnostic>): (r: (Outcome, seq<Diagnostic>))
    ensures |tokens| == 0 ==> r == (Finished(Spanned(ParserError, Range(0, 1))), diags)
    ensures |tokens| > 0 ==> r == Parse(Tokens(tokens, 0), diags)
  {
    if |tokens| == 0 then (Finished(Spanned(ParserError, Range(0, 1))), diags)
    else Parse(NewTokens(tokens), diags)
  }

  /**
   * When the statement list parses, the driver adds no diagnostic and
   * finishes with that list exactly when the list consumed every token.
   */
  lemma ParseOnSuccess(input: Tokens, diags: seq<Diagnostic>)
    requires StatementList(input).Done?
    ensures Parse(input, diags).1 == diags
    ensures Parse(input, diags).0.Finished? <==> |StatementList(input).rest.toks| == 0
    ensures Parse(input, diags).0.Finished? ==>
      Parse(input, diags).0.program == StatementList(input).value &&
      Parse(input, diags).0.program.value.Parsed?
    ensures !Parse(input, diags).0.Finished? ==> Parse(input, diags).0 == Panicked(Unrecovered)
  {
  }

  /**
   * When the statement list fails, its error is a bare located error; the
   * driver panics if that location is empty, and otherwise reports exactly
   * one "Unexpected token" from that location's offset to the end of its
   * first token, and finishes with the
   * `ParserError` marker exactly when that token was the last one.
   */
  lemma ParseOnFailure(input: Tokens, diags: seq<Diagnostic>)
    requires !StatementList(input).Done?
    ensures StatementList(input).Failure? && StatementList(input).err.Base?
    ensures
      var loc := StatementList(input).err.location;
      (|loc.toks| == 0 ==> Parse(input, diags) == (Panicked(SplitPastEnd), diags)) &&
      (|loc.toks| > 0 ==>
        Parse(input, diags).1 == diags + [Diagnostic(StreamSpan(TakeSplit(loc, 1).1), UnexpectedToken)] &&
        (Parse(input, diags).0.Finished? <==> |loc.toks| == 1) &&
        (|loc.toks| == 1 ==>
          Parse(input, diags).0.program == Spanned(ParserError, StreamSpan(TakeSplit(loc, 1).1))))
  {
    var (s, d) := Statements(input, diags);
    assert s.Error? && s.err == StatementList(input).err;
  }
}

module ParserScenarios {
  import opened Wrappers
  import opened Diag
  import opened Tok
  import opened Nom
  import opened Ast
  import opened Grammar
  import opened Parser

  /** The tokens of `class { }`: a class keyword with no name. */
  const NamelessClass: seq<TokSpan> :=
    [TokSpan(K(Keyword.Class), 0, 5), TokSpan(Separator('{'), 6, 1), TokSpan(Separator('}'), 8, 1)]

  /**
   * A class without a name fails softly, `many0` swallows that, the list is
   * empty and `eof` fails: the driver ends in its `expect` panic with no
   * diagnostic.
   */
  lemma NamelessClassPanics()
    ensures TokenParse(NamelessClass, []) == (Panicked(Unrecovered), [])
  {
    var input := NewTokens(NamelessClass);
    assert Grammar.Ident(TakeSplit(input, 1).0).Error?;
    assert ClassDefinition(input).Error?;
    assert TopLevel(input).Error?;
    assert StatementList(input) == Done(input, Spanned(Parsed([]), SpanOf(input, input)));
  }

  /** The tokens of `class A {` with nothing after the brace. */
  const UnclosedClass: seq<TokSpan> :=
    [TokSpan(K(Keyword.Class), 0, 5), TokSpan(Ident("A"), 6, 1), TokSpan(Separator('{'), 8, 1)]

  /**
   * A class whose `}` is missing at the end of the input fails softly with
   * the `Closing brack` frame; `many0` swallows that, the list is empty and
   * `eof` fails: the driver ends in its `expect` panic with no diagnostic.
   */
  lemma UnclosedClassPanics()
    ensures TokenParse(UnclosedClass, []) == (Panicked(Unrecovered), [])
  {
    var input := NewTokens(UnclosedClass);
    var head := ClassHead(input);
    assert head.Done? && |head.rest.toks| == 0;
    assert Attributes(head.rest, []) == Done(head.rest, []);
    assert Methods(head.rest, []) == Done(head.rest, []);
    assert ClassDefinition(input).Error?;
    assert TopLevel(input).Error?;
    assert StatementList(input) == Done(input, Spanned(Parsed([]), SpanOf(input, input)));
  }

  /** The tokens of `class A { }`. */
  const EmptyClass: seq<TokSpan> :=
    [TokSpan(K(Keyword.Class), 0, 5), TokSpan(Ident("A"), 6, 1), TokSpan(Separator('{'), 8, 1), TokSpan(Separator('}'), 10, 1)]

  /** The class definition alone: it takes every token of `class A { }`. */
  lemma EmptyClassDefinition()
    ensures ClassDefinition(NewTokens(EmptyClass)).Done?
    ensures |ClassDefinition(NewTokens(EmptyClass)).rest.toks| == 0
    ensures ClassDefinition(NewTokens(EmptyClass)).value.value == Ast.Class(
      ClassHead(NewTokens(EmptyClass)).value, [], [])
    ensures ClassHead(NewTokens(EmptyClass)).value.value == "A"
  {
    var input := NewTokens(EmptyClass);
    var head := ClassHead(input);
    assert head.Done? && head.value.value == "A" && head.rest.toks == [EmptyClass[3]];
    assert Attributes(head.rest, []) == Done(head.rest, []);
    assert Methods(head.rest, []) == Done(head.rest, []);
  }

  /** The statement list of `class A { }`: that one class, with every token consumed. */
  lemma EmptyClassStatements()
    ensures StatementList(NewTokens(EmptyClass)).Done?
    ensures |StatementList(NewTokens(EmptyClass)).rest.toks| == 0
    ensures StatementList(NewTokens(EmptyClass)).value.value ==
      Parsed([Spanned(ClassStatement(ClassDefinition(NewTokens(EmptyClass)).value.value),
        ClassDefinition(NewTokens(EmptyClass)).value.span)])
  {
    var input := NewTokens(EmptyClass);
    EmptyClassDefinition();
    var c := ClassDefinition(input);
    var s := Spanned(ClassStatement(c.value.value), c.value.span);
    assert TopLevel(input) == Done(c.rest, s);
    TopLevelsStep(input, []);
    assert [] + [s] == [s];
    TopLevelsAtEnd(c.rest, [s]);
  }

  /** An empty class parses to one class statement named `A`, with no diagnostic. */
  lemma EmptyClassParses()
    ensures TokenParse(EmptyClass, []).1 == []
    ensures TokenParse(EmptyClass, []).0.Finished?
    ensures
      var program := TokenParse(EmptyClass, []).0.program.value;
      program.Parsed? && |program.value| == 1 &&
      program.value[0].value.ClassStatement? &&
      program.value[0].value.cls.name.value == "A" &&
      program.value[0].value.cls.attributes == [] && program.value[0].value.cls.methods == []
  {
    EmptyClassDefinition();
    EmptyClassStatements();
    ParseOnSuccess(NewTokens(EmptyClass), []);
  }
}
