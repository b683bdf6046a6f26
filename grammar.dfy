/**
 * The grammar (diaparser/src/parser/statements.rs): one function per
 * production, over the token stream, with nom's sequencing, `opt`, `many0`,
 * `separated_list0` and `alt` written out.
 *
 * Every production returns `Done` with the stream that is left (never
 * longer than its input), a soft `Error`, or a committed `Failure`; only
 * `non_opt` commits, and what it commits is always a bare `Base` error.
 */
module Grammar {
  import opened Wrappers
  import opened Diag
  import opened Tok
  import opened Nom
  import opened Ast
  import opened Recovery

  /** The message of the external error raised by `ident` on a non-identifier. */
  const ExpectedIdentifier: string := "Expected identifier"

  /** A successful result leaves no more tokens than its input had. */
  predicate Advances<T>(r: PResult<T>, input: Tokens)
  {
    r.Done? ==> |r.rest.toks| <= |input.toks|
  }

  /** A successful result leaves fewer tokens than its input had. */
  predicate Consumes<T>(r: PResult<T>, input: Tokens)
  {
    r.Done? ==> |r.rest.toks| < |input.toks|
  }

  /** A committed failure carries a bare `Base` error. */
  predicate BaseFailure<T>(r: PResult<T>)
  {
    r.Failure? ==> r.err.Base?
  }

  /**
   * `ident`: exactly one token, which must be an identifier; the result is
   * its text. It fails softly otherwise, located at the input.
   */
  function Ident(input: Tokens): (r: PResult<Spanned<string>>)
    ensures r.Done? <==> |input.toks| > 0 && input.toks[0].tok.Ident?
    ensures r.Done? ==> r.rest == TakeSplit(input, 1).0 && r.value.value == input.toks[0].tok.text
    ensures r.Done? ==> r.value.span == SpanOf(input, r.rest)
    ensures r.Done? ==> |r.rest.toks| == |input.toks| - 1
    ensures |input.toks| == 0 ==> r == Error(Base(input, Kind(EofKind)))
    ensures |input.toks| > 0 && !input.toks[0].tok.Ident? ==>
      r == Error(Base(input, External(ExpectedIdentifier)))
  {
    var t := TakeN(input, 1);
    if !t.Done? then Error(t.err)
    else
      var consumed := t.value;
      match consumed.toks[0].tok
      case Ident(s) => Done(t.rest, Spanned(s, SpanOf(input, t.rest)))
      case _ => Error(Base(input, External(ExpectedIdentifier)))
  }

  /**
   * The span `spanned(take(1))` gives an identifier in a stream whose tokens
   * start at increasing offsets: from the start of the stream's span to the
   * end of the token.
   */
  lemma IdentSpan(input: Tokens)
    requires |input.toks| > 0 && input.toks[0].tok.Ident? && input.toks[0].len > 0
    requires |input.toks| > 1 ==> input.toks[0].start < input.toks[1].start
    ensures Ident(input).value.span == Range(StreamSpan(input).start, TokenSpan(input.toks[0]).end)
  {
    var rest := TakeSplit(input, 1).0;
    var next := StreamSpan(rest).start;
    assert next == if |input.toks| > 1 then input.toks[1].start else TokenSpan(input.toks[0]).end;
    LeadingRunIsFirstStop(input.toks, next, 1);
  }

  /** `preceded(tag(sep), non_opt(ident))`: once `sep` is consumed, the identifier is committed. */
  function CommittedIdent(input: Tokens, sep: char): (r: PResult<Spanned<string>>)
    ensures Consumes(r, input) && BaseFailure(r)
    ensures r.Error? <==> Compare(input, Separator(sep)) == CompareError
    ensures r.Error? ==> r.err == Base(input, Kind(TagKind))
    ensures r.Failure? <==>
      |input.toks| > 0 && input.toks[0].tok == Separator(sep) && !(|input.toks| > 1 && input.toks[1].tok.Ident?)
    ensures r.Done? ==> r.value.value == input.toks[1].tok.text && |r.rest.toks| == |input.toks| - 2
  {
    var t := Tag(input, Separator(sep));
    if !t.Done? then Error(t.err)
    else
      NonOpt(Ident(t.rest))
  }

  /** `preceded(tag(':'), ident)`: the uncommitted type of an assignment. */
  function SoftTypedIdent(input: Tokens): (r: PResult<Spanned<string>>)
    ensures Consumes(r, input) && !r.Failure?
    ensures r.Done? <==> |input.toks| > 1 && input.toks[0].tok == Separator(':') && input.toks[1].tok.Ident?
    ensures r.Done? ==> r.value.value == input.toks[1].tok.text && |r.rest.toks| == |input.toks| - 2
  {
    var t := Tag(input, Separator(':'));
    if !t.Done? then Error(t.err)
    else
      Ident(t.rest)
  }

  /**
   * `attribute`: a name, optionally followed by `: type`; after the `:` a
   * missing type is a committed failure.
   */
  function AttributeRule(input: Tokens): (r: PResult<Spanned<Attribute>>)
    ensures Consumes(r, input) && BaseFailure(r)
    ensures r.Done? ==> Ident(input).Done? && r.value.value.name == Ident(input).value
    ensures r.Error? <==> !Ident(input).Done?
    ensures r.Done? ==>
      Opt(CommittedIdent(Ident(input).rest, ':'), Ident(input).rest).Done? &&
      r.value.value.ty == Opt(CommittedIdent(Ident(input).rest, ':'), Ident(input).rest).value
  {
    var n := Ident(input);
    if !n.Done? then Error(n.err)
    else
      var ty := Opt(CommittedIdent(n.rest, ':'), n.rest);
      if !ty.Done? then Failure(ty.err)
      else
        Done(ty.rest, Spanned(Attribute(n.value, ty.value), SpanOf(input, ty.rest)))
  }

  /**
   * Once an attribute's name is followed by `:`, its type is committed: the
   * attribute fails for good unless the next token is an identifier, and
   * then that identifier is its type.
   */
  lemma AttributeTypeIsCommitted(input: Tokens)
    requires |input.toks| >= 2 && input.toks[0].tok.Ident? && input.toks[1].tok == Separator(':')
    ensures AttributeRule(input).Failure? <==> !(|input.toks| > 2 && input.toks[2].tok.Ident?)
    ensures AttributeRule(input).Done? ==>
      AttributeRule(input).value.value.ty.Some? &&
      AttributeRule(input).value.value.ty.value.value == input.toks[2].tok.text
  {
    var afterName := TakeSplit(input, 1).0;
    TakeSplitJoin(input, 1);
    assert afterName.toks[0] == input.toks[1];
    var afterColon := TakeSplit(afterName, 1).0;
    TakeSplitJoin(afterName, 1);
    if |input.toks| > 2 {
      assert afterColon.toks[0] == afterName.toks[1] == input.toks[2];
    }
  }

  /** `separated_list0(tag(','), attribute)`. */
  function AttributeList(input: Tokens): (r: PResult<seq<Spanned<Attribute>>>)
    ensures Advances(r, input) && BaseFailure(r) && !r.Error?
  {
    var first := AttributeRule(input);
    if first.Error? then Done(input, [])
    else if first.Failure? then Failure(first.err)
    else
      AttributeListTail(first.rest, [first.value])
  }

  /**
   * The loop of `separated_list0` after the first element: a `,` then an
   * element; a soft error in either ends the list before the `,`. (The
   * separator always consumes a token, so nom's no-progress check never
   * fires.)
   */
  function AttributeListTail(input: Tokens, acc: seq<Spanned<Attribute>>): (r: PResult<seq<Spanned<Attribute>>>)
    ensures Advances(r, input) && BaseFailure(r) && !r.Error?
    decreases |input.toks|
  {
    var sep := Tag(input, Separator(','));
    if !sep.Done? then Done(input, acc)
    else
      var elem := AttributeRule(sep.rest);
      if elem.Error? then Done(input, acc)
      else if elem.Failure? then Failure(elem.err)
      else
        AttributeListTail(elem.rest, acc + [elem.value])
  }

  /** `separated_list0(tag(','), ident)`. */
  function IdentList(input: Tokens): (r: PResult<seq<Spanned<string>>>)
    ensures Advances(r, input) && r.Done?
  {
    var first := Ident(input);
    if !first.Done? then Done(input, [])
    else
      IdentListTail(first.rest, [first.value])
  }

  function IdentListTail(input: Tokens, acc: seq<Spanned<string>>): (r: PResult<seq<Spanned<string>>>)
    ensures Advances(r, input) && r.Done?
    decreases |input.toks|
  {
    var sep := Tag(input, Separator(','));
    if !sep.Done? then Done(input, acc)
    else
      var elem := Ident(sep.rest);
      if !elem.Done? then Done(input, acc)
      else
        IdentListTail(elem.rest, acc + [elem.value])
  }

  /**
   * `func_call`: `root[.access](arg, ...)`; the identifier after `.` is
   * committed, everything else fails softly.
   */
  function FuncCallRule(input: Tokens): (r: PResult<Spanned<FuncCall>>)
    ensures Consumes(r, input) && BaseFailure(r)
    ensures r.Done? ==> Ident(input).Done? && r.value.value.root == Ident(input).value
    ensures !Ident(input).Done? ==> r.Error?
    ensures r.Failure? <==> Ident(input).Done? && CommittedIdent(Ident(input).rest, '.').Failure?
    ensures r.Done? ==>
      var afterRoot := Ident(input).rest;
      (r.value.value.access.Some? <==> Compare(afterRoot, Separator('.')) == CompareOk) &&
      (r.value.value.access.Some? ==> r.value.value.access.value.value == afterRoot.toks[1].tok.text)
    ensures Ident(input).Done? && !CommittedIdent(Ident(input).rest, '.').Failure? ==>
      var access := Opt(CommittedIdent(Ident(input).rest, '.'), Ident(input).rest);
      var open := Tag(access.rest, Separator('('));
      (!open.Done? ==> r == Error(Base(access.rest, Kind(TagKind)))) &&
      (open.Done? ==>
        var args := IdentList(open.rest);
        (r.Done? <==> Compare(args.rest, Separator(')')) == CompareOk) &&
        (!r.Done? ==> r == Error(Base(args.rest, Kind(TagKind)))) &&
        (r.Done? ==>
          r.value.value == FuncCall(Ident(input).value, access.value, args.value) &&
          r.rest == TakeSplit(args.rest, 1).0 && r.value.span == SpanOf(input, r.rest)))
  {
    var root := Ident(input);
    if !root.Done? then Error(root.err)
    else
      var access := Opt(CommittedIdent(root.rest, '.'), root.rest);
      if !access.Done? then Failure(access.err)
      else
        var open := Tag(access.rest, Separator('('));
        if !open.Done? then Error(open.err)
        else
          var args := IdentList(open.rest);
          var close := Tag(args.rest, Separator(')'));
          if !close.Done? then Error(close.err)
          else
            Done(close.rest, Spanned(FuncCall(root.value, access.value, args.value), SpanOf(input, close.rest)))
  }

  /**
   * `terminated(pair(ident, opt(preceded(tag(':'), ident))), tag(Op("=")))`:
   * the optional `name [: type] =` in front of a call. It never commits.
   */
  function AssignmentPrefix(input: Tokens): (r: PResult<(Spanned<string>, Option<Spanned<string>>)>)
    ensures Consumes(r, input) && !r.Failure?
    ensures r.Done? ==> Ident(input).Done? && r.value.0 == Ident(input).value
    ensures r.Done? ==>
      var afterName := Ident(input).rest;
      (r.value.1.Some? <==> SoftTypedIdent(afterName).Done?) &&
      (r.value.1.Some? ==> r.value.1.value.value == afterName.toks[1].tok.text)
    ensures Ident(input).Done? ==>
      var ty := Opt(SoftTypedIdent(Ident(input).rest), Ident(input).rest);
      (r.Done? <==> Compare(ty.rest, Op("=")) == CompareOk) &&
      (r.Done? ==> r.rest == TakeSplit(ty.rest, 1).0)
  {
    var name := Ident(input);
    if !name.Done? then Error(name.err)
    else
      var ty := Opt(SoftTypedIdent(name.rest), name.rest);
      var eq := Tag(ty.rest, Op("="));
      if !eq.Done? then Error(eq.err)
      else
        Done(eq.rest, (name.value, ty.value))
  }

  /**
   * One statement of a method body: with an assignment prefix it is an
   * `Assignment` holding the call with the call's own span, otherwise the
   * call itself with the statement's span.
   */
  function BodyStatement(input: Tokens): (r: PResult<Spanned<Expr>>)
    ensures Consumes(r, input) && BaseFailure(r)
    ensures var prefix := Opt(AssignmentPrefix(input), input);
      var call := FuncCallRule(prefix.rest);
      prefix.Done? && (prefix.value.Some? <==> AssignmentPrefix(input).Done?) &&
      (r.Done? <==> call.Done?) &&
      (!call.Done? ==> r.Error? == call.Error? && r.err == call.err) &&
      (r.Done? ==>
        r.rest == call.rest && r.value.span == SpanOf(input, call.rest) &&
        (prefix.value.Some? ==>
          r.value.value == AssignmentExpr(Assignment(prefix.value.value.0, Spanned(FuncCallExpr(call.value.value), call.value.span), prefix.value.value.1))) &&
        (prefix.value.None? ==> r.value.value == FuncCallExpr(call.value.value)))
  {
    var prefix := Opt(AssignmentPrefix(input), input);
    var call := FuncCallRule(prefix.rest);
    if !call.Done? then Propagate(call)
    else
      var span := SpanOf(input, call.rest);
      match prefix.value
      case Some(p) =>
        Done(call.rest, Spanned(AssignmentExpr(Assignment(p.0, Spanned(FuncCallExpr(call.value.value), call.value.span), p.1)), span))
      case None => Done(call.rest, Spanned(FuncCallExpr(call.value.value), span))
  }

  /** `many0` over body statements, collecting into `acc`. */
  function BodyStatements(input: Tokens, acc: seq<Spanned<Expr>>): (r: PResult<seq<Spanned<Expr>>>)
    ensures Advances(r, input) && BaseFailure(r) && !r.Error?
    decreases |input.toks|
  {
    var s := BodyStatement(input);
    if s.Error? then Done(input, acc)
    else if s.Failure? then Failure(s.err)
    else if |s.rest.toks| == |input.toks| then Error(Base(input, Kind(Many0Kind)))
    else
      BodyStatements(s.rest, acc + [s.value])
  }

  /** `method_body`: the statements as one `ExprList`; it never fails softly. */
  function MethodBody(input: Tokens): (r: PResult<Spanned<Expr>>)
    ensures Advances(r, input) && BaseFailure(r) && !r.Error?
    ensures r.Done? ==> r.value.value.ExprList?
  {
    var stmts := BodyStatements(input, []);
    if !stmts.Done? then Propagate(stmts)
    else Done(stmts.rest, Spanned(ExprList(stmts.value), SpanOf(input, stmts.rest)))
  }

  /** `terminated(method_body, tag('}'))`. */
  function BodyThenClose(input: Tokens): (r: PResult<Spanned<Expr>>)
    ensures Consumes(r, input) && BaseFailure(r)
  {
    var body := MethodBody(input);
    if !body.Done? then Propagate(body)
    else
      var close := Tag(body.rest, Separator('}'));
      if !close.Done? then Error(close.err)
      else
        Done(close.rest, body.value)
  }

  /** `preceded(tag('{'), non_opt(terminated(method_body, tag('}'))))`: a body is committed after `{`. */
  function BodyBlock(input: Tokens): (r: PResult<Spanned<Expr>>)
    ensures Consumes(r, input) && BaseFailure(r)
    ensures r.Error? <==> Compare(input, Separator('{')) == CompareError
    ensures Compare(input, Separator('{')) == CompareOk ==>
      (r.Failure? <==> !BodyThenClose(TakeSplit(input, 1).0).Done?) &&
      (r.Done? ==> r == BodyThenClose(TakeSplit(input, 1).0))
  {
    var open := Tag(input, Separator('{'));
    if !open.Done? then Error(open.err)
    else
      NonOpt(BodyThenClose(open.rest))
  }

  /** The stream after `fn name ( attribute, ... )`, when those pieces all succeed. */
  function MethodParamsClosed(input: Tokens): Option<Tokens>
  {
    var kw := Tag(input, K(Fn));
    if !kw.Done? then None
    else
      var name := Ident(kw.rest);
      if !name.Done? then None
      else
        var open := Tag(name.rest, Separator('('));
        if !open.Done? then None
        else
          var params := AttributeList(open.rest);
          if !params.Done? then None
          else
            var close := Tag(params.rest, Separator(')'));
            if !close.Done? then None else Some(close.rest)
  }

  /**
   * `method_definition`: `fn name ( attr, ... )`, an optional `: ret` and an
   * optional `{ body }`.
   */
  function MethodDefinition(input: Tokens): (r: PResult<Spanned<Method>>)
    ensures Consumes(r, input) && BaseFailure(r)
    ensures Compare(input, K(Fn)) == CompareError ==> r == Error(Base(input, Kind(TagKind)))
  {
    var kw := Tag(input, K(Fn));
    if !kw.Done? then Error(kw.err)
    else
      var name := Ident(kw.rest);
      if !name.Done? then Error(name.err)
      else
        var open := Tag(name.rest, Separator('('));
        if !open.Done? then Error(open.err)
        else
          var params := AttributeList(open.rest);
          if !params.Done? then Propagate(params)
          else
            var close := Tag(params.rest, Separator(')'));
            if !close.Done? then Error(close.err)
            else
              var ret := Opt(CommittedIdent(close.rest, ':'), close.rest);
              if !ret.Done? then Propagate(ret)
              else
                var body := Opt(BodyBlock(ret.rest), ret.rest);
                if !body.Done? then Propagate(body)
                else
                  Done(body.rest, Spanned(Method(name.value, params.value, ret.value, body.value), SpanOf(input, body.rest)))
  }

  /**
   * Before the `(` of a method nothing is committed: a missing name or `(`
   * after `fn` is a soft error.
   */
  lemma MethodDefinitionHead(input: Tokens)
    requires Compare(input, K(Fn)) == CompareOk
    ensures var name := Ident(TakeSplit(input, 1).0);
      !name.Done? || Compare(name.rest, Separator('(')) == CompareError ==> MethodDefinition(input).Error?
  {
  }

  /**
   * A method is built from its pieces: the name after `fn`, the attribute
   * list between the parentheses, the optional `: ret` and the optional
   * `{ body }`, and it ends where the last piece ends.
   */
  lemma MethodDefinitionPieces(input: Tokens)
    requires MethodDefinition(input).Done?
    ensures var r := MethodDefinition(input);
      var name := Ident(TakeSplit(input, 1).0);
      var params := AttributeList(TakeSplit(name.rest, 1).0);
      var close := TakeSplit(params.rest, 1).0;
      var ret := Opt(CommittedIdent(close, ':'), close);
      var body := Opt(BodyBlock(ret.rest), ret.rest);
      MethodParamsClosed(input) == Some(close) &&
      r.value.value == Method(name.value, params.value, ret.value, body.value) &&
      r.rest == body.rest && r.value.span == SpanOf(input, r.rest)
  {
  }

  /**
   * After the closing `)` two things are committed: a `:` must be followed
   * by the return type, and a `{` by a body and its `}`; otherwise the
   * method fails for good.
   */
  lemma MethodDefinitionCommits(input: Tokens)
    requires MethodParamsClosed(input).Some?
    ensures var close := MethodParamsClosed(input).value;
      CommittedIdent(close, ':').Failure? ==> MethodDefinition(input).Failure?
    ensures var close := MethodParamsClosed(input).value;
      !CommittedIdent(close, ':').Failure? ==>
        var ret := Opt(CommittedIdent(close, ':'), close);
        Compare(ret.rest, Separator('{')) == CompareOk && !BodyThenClose(TakeSplit(ret.rest, 1).0).Done? ==>
          MethodDefinition(input).Failure?
  {
  }

  /** `many0(attribute)`. */
  function Attributes(input: Tokens, acc: seq<Spanned<Attribute>>): (r: PResult<seq<Spanned<Attribute>>>)
    ensures Advances(r, input) && BaseFailure(r) && !r.Error?
    decreases |input.toks|
  {
    var a := AttributeRule(input);
    if a.Error? then Done(input, acc)
    else if a.Failure? then Failure(a.err)
    else if |a.rest.toks| == |input.toks| then Error(Base(input, Kind(Many0Kind)))
    else
      Attributes(a.rest, acc + [a.value])
  }

  /** `many0(method_definition)`. */
  function Methods(input: Tokens, acc: seq<Spanned<Method>>): (r: PResult<seq<Spanned<Method>>>)
    ensures Advances(r, input) && BaseFailure(r) && !r.Error?
    decreases |input.toks|
  {
    var m := MethodDefinition(input);
    if m.Error? then Done(input, acc)
    else if m.Failure? then Failure(m.err)
    else if |m.rest.toks| == |input.toks| then Error(Base(input, Kind(Many0Kind)))
    else
      Methods(m.rest, acc + [m.value])
  }

  /** The four labels of `class_definition`. */
  predicate IsClassLabel(text: string)
  {
    text == "tag class" || text == "class name" || text == "Opening brack" || text == "Closing brack"
  }

  /** A soft error of `class_definition`: one labelled frame over a `Base` error. */
  predicate ClassError(e: ErrTree)
  {
    e.Stack? && e.base.Base? && |e.contexts| == 1 &&
    e.contexts[0].context.Context? && IsClassLabel(e.contexts[0].context.text)
  }

  /**
   * The first three pieces of `class_definition`, `class name {`, each
   * labelled by its context; the result is the name.
   */
  function ClassHead(input: Tokens): (r: PResult<Spanned<string>>)
    ensures Consumes(r, input) && !r.Failure?
    ensures r.Error? ==> ClassError(r.err)
    ensures Compare(input, K(Keyword.Class)) == CompareError ==>
      r == Error(Stack(Base(input, Kind(TagKind)), [Frame(input, Context("tag class"))]))
    ensures Compare(input, K(Keyword.Class)) == CompareOk ==>
      var afterKw := TakeSplit(input, 1).0;
      var name := Ident(afterKw);
      (!name.Done? ==> r == Error(Stack(name.err, [Frame(afterKw, Context("class name"))]))) &&
      (name.Done? && Compare(name.rest, Separator('{')) == CompareError ==>
        r == Error(Stack(Base(name.rest, Kind(TagKind)), [Frame(name.rest, Context("Opening brack"))]))) &&
      (name.Done? && Compare(name.rest, Separator('{')) == CompareOk ==>
        r == Done(TakeSplit(name.rest, 1).0, name.value))
  {
    var kw := WithContext(Tag(input, K(Keyword.Class)), input, "tag class");
    if !kw.Done? then Propagate(kw)
    else
      var name := WithContext(Ident(kw.rest), kw.rest, "class name");
      if !name.Done? then Propagate(name)
      else
        var open := WithContext(Tag(name.rest, Separator('{')), name.rest, "Opening brack");
        if !open.Done? then Propagate(open)
        else Done(open.rest, name.value)
  }

  /**
   * `class_definition`: `class name { attribute* method* }`, all attributes
   * before any method, with the four pieces labelled by context.
   */
  function ClassDefinition(input: Tokens): (r: PResult<Spanned<Class>>)
    ensures Consumes(r, input) && BaseFailure(r)
    ensures r.Error? ==> ClassError(r.err)
    ensures Compare(input, K(Keyword.Class)) == CompareError ==>
      r == Error(Stack(Base(input, Kind(TagKind)), [Frame(input, Context("tag class"))]))
    ensures var head := ClassHead(input);
      !head.Done? ==> r == Error(head.err)
    ensures var head := ClassHead(input);
      head.Done? ==>
        var attrs := Attributes(head.rest, []);
        (attrs.Failure? ==> r == Failure(attrs.err)) &&
        (attrs.Done? ==>
          var methods := Methods(attrs.rest, []);
          (methods.Failure? ==> r == Failure(methods.err)) &&
          (methods.Done? && Compare(methods.rest, Separator('}')) == CompareError ==>
            r == Error(Stack(Base(methods.rest, Kind(TagKind)), [Frame(methods.rest, Context("Closing brack"))]))) &&
          (methods.Done? && Compare(methods.rest, Separator('}')) == CompareOk ==>
            r.Done? && r.value.value == Ast.Class(head.value, attrs.value, methods.value) &&
            r.rest == TakeSplit(methods.rest, 1).0 && r.value.span == SpanOf(input, r.rest)))
  {
    var head := ClassHead(input);
    if !head.Done? then Propagate(head)
    else
      var attrs := Attributes(head.rest, []);
      if !attrs.Done? then Propagate(attrs)
      else
        var methods := Methods(attrs.rest, []);
        if !methods.Done? then Propagate(methods)
        else
          var close := WithContext(Tag(methods.rest, Separator('}')), methods.rest, "Closing brack");
          if !close.Done? then Propagate(close)
          else
            Done(close.rest, Spanned(Ast.Class(head.value, attrs.value, methods.value), SpanOf(input, close.rest)))
  }

  /** `annotation_entrypoint`: `@SequenceEntrypoint` followed by a call. */
  function AnnotationEntrypoint(input: Tokens): (r: PResult<Spanned<SequenceEntrypointBlock>>)
    ensures Consumes(r, input) && BaseFailure(r)
    ensures Compare(input, A(Annotation.SequenceEntrypoint)) == CompareError ==>
      r == Error(Stack(Base(input, Kind(TagKind)), [Frame(input, Context("tag sequence_entrypoint"))]))
    ensures Compare(input, A(Annotation.SequenceEntrypoint)) == CompareOk ==>
      var call := FuncCallRule(TakeSplit(input, 1).0);
      (r.Done? <==> call.Done?) &&
      (!call.Done? ==> r.Error? == call.Error? && r.err == call.err) &&
      (call.Done? ==> r == Done(call.rest, Spanned(SequenceEntrypointBlock(call.value.value, call.value.span), SpanOf(input, call.rest))))
  {
    var tag := WithContext(Tag(input, A(Annotation.SequenceEntrypoint)), input, "tag sequence_entrypoint");
    if !tag.Done? then Propagate(tag)
    else
      var call := FuncCallRule(tag.rest);
      if !call.Done? then Propagate(call)
      else
        Done(call.rest, Spanned(SequenceEntrypointBlock(call.value.value, call.value.span), SpanOf(input, call.rest)))
  }

  /** `annotation_block`: a one-alternative `choice`, which is its alternative. */
  function AnnotationBlock(input: Tokens): (r: PResult<Spanned<AnnotatedBlock>>)
    ensures Consumes(r, input) && BaseFailure(r)
    ensures r.Done? == AnnotationEntrypoint(input).Done? && r.Error? == AnnotationEntrypoint(input).Error?
    ensures !r.Done? ==> !AnnotationEntrypoint(input).Done? && r.err == AnnotationEntrypoint(input).err
  {
    var e := AnnotationEntrypoint(input);
    if !e.Done? then Propagate(e)
    else Done(e.rest, Spanned(AnnotatedBlock.SequenceEntrypoint(e.value.value), e.value.span))
  }

  /**
   * The `choice` of `statements`: a class is tried first, then an
   * annotation block; when both fail softly their errors are merged.
   */
  function TopLevel(input: Tokens): (r: PResult<Spanned<TopLevelStatement>>)
    ensures Consumes(r, input) && BaseFailure(r)
    ensures ClassDefinition(input).Done? ==>
      r == Done(ClassDefinition(input).rest,
        Spanned(ClassStatement(ClassDefinition(input).value.value), ClassDefinition(input).value.span))
    ensures r.Done? && r.value.value.AnnotatedStatement? ==> ClassDefinition(input).Error?
    ensures r.Error? ==>
      ClassDefinition(input).Error? && AnnotationBlock(input).Error? &&
      r.err == Or(ClassDefinition(input).err, AnnotationBlock(input).err)
  {
    var c := ClassDefinition(input);
    if c.Done? then Done(c.rest, Spanned(ClassStatement(c.value.value), c.value.span))
    else if c.Failure? then Failure(c.err)
    else
      var a := AnnotationBlock(input);
      if a.Done? then Done(a.rest, Spanned(AnnotatedStatement(a.value.value), a.value.span))
      else if a.Failure? then Failure(a.err)
      else Error(Append(input, AltKind, Or(c.err, a.err)))
  }

  /** `many0` over top-level statements. */
  function TopLevels(input: Tokens, acc: seq<Spanned<TopLevelStatement>>): (r: PResult<seq<Spanned<TopLevelStatement>>>)
    ensures Advances(r, input) && BaseFailure(r) && !r.Error?
    decreases |input.toks|
  {
    var s := TopLevel(input);
    if s.Error? then Done(input, acc)
    else if s.Failure? then Failure(s.err)
    else if |s.rest.toks| == |input.toks| then Error(Base(input, Kind(Many0Kind)))
    else
      TopLevels(s.rest, acc + [s.value])
  }

  /** One successful top-level statement is one step of the repetition. */
  lemma TopLevelsStep(input: Tokens, acc: seq<Spanned<TopLevelStatement>>)
    requires TopLevel(input).Done?
    ensures TopLevels(input, acc) == TopLevels(TopLevel(input).rest, acc + [TopLevel(input).value])
  {
  }

  /** At the end of the stream the repetition stops with what it has collected. */
  lemma TopLevelsAtEnd(input: Tokens, acc: seq<Spanned<TopLevelStatement>>)
    requires |input.toks| == 0
    ensures TopLevels(input, acc) == Done(input, acc)
  {
    assert TopLevel(input).Error?;
  }

  /** The statement list of `statements` before recovery, wrapped as `Ok(v)` with its span. */
  function StatementList(input: Tokens): (r: PResult<Spanned<Parsed<seq<Spanned<TopLevelStatement>>>>>)
    ensures Advances(r, input) && BaseFailure(r) && !r.Error?
    ensures r.Done? ==> r.value.value.Parsed?
  {
    var list := TopLevels(input, []);
    if !list.Done? then Propagate(list)
    else Done(list.rest, Spanned(Parsed(list.value), SpanOf(input, list.rest)))
  }

  /**
   * `statements`: the statement list under `expression_recovery`. Since a
   * committed failure of the grammar is always a bare `Base` error, recovery
   * never applies here: the outcome is the list, or that error made soft,
   * and no diagnostic is added.
   */
  function Statements(input: Tokens, diags: seq<Diagnostic>): (r: (PResult<Spanned<Parsed<seq<Spanned<TopLevelStatement>>>>>, seq<Diagnostic>))
    ensures r.1 == diags
    ensures r.0.Done? ==> r.0 == StatementList(input) && |r.0.rest.toks| <= |input.toks|
    ensures r.0.Done? ==> r.0.value.value.Parsed?
    ensures !r.0.Done? ==> r.0.Error? && r.0.err.Base? && StatementList(input) == Failure(r.0.err)
  {
    ExpressionRecovery(StatementList(input), diags)
  }
}
