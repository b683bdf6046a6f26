/**
 * Error recovery (diaparser/src/recovery_err.rs): turning an error tree into
 * a diagnostic and a resynchronised stream, and the `non_opt` and
 * `expression_recovery` wrappers.
 *
 * The shared `RefCell` sink is modelled twice: the specification functions
 * thread the diagnostics as a sequence, and the methods append to a
 * `Diag.Sink` and are proved to append exactly what the functions compute.
 */
module Recovery {
  import opened Wrappers
  import opened Diag
  import opened Tok
  import opened Nom
  import opened Ast

  /** `non_opt`: a soft error becomes a committed failure; everything else passes through. */
  function NonOpt<T>(r: PResult<T>): (s: PResult<T>)
    ensures r.Error? ==> s == Failure(r.err)
    ensures !r.Error? ==> s == r
  {
    match r
    case Error(e) => Failure(e)
    case _ => r
  }

  /**
   * The trees `recover_from_error` accepts without reaching `unreachable!`
   * or an out-of-bounds index: every `Stack` has at least one frame and its
   * last frame carries a text context.
   */
  predicate WellFormed(e: ErrTree)
  {
    match e
    case Base(_, _) => true
    case Stack(base, contexts) =>
      |contexts| > 0 && contexts[|contexts| - 1].context.Context? && WellFormed(base)
    case Alt(v) => forall k :: 0 <= k < |v| ==> WellFormed(v[k])
  }

  /** The outcome of `recover_from_error`: a stream to continue from and the span of the error, or the error. */
  datatype Recovery = Recovered(rest: Tokens, span: Range) | Unrecovered(err: ErrTree)

  /** The guard of the resynchronisation loop: not at `;` and not at the end. */
  predicate KeepSkipping(rest: Tokens)
  {
    Compare(rest, Separator(';')) == CompareError && |rest.toks| > 0
  }

  /**
   * The resynchronisation loop: while the guard holds, re-split the one-token
   * `next` and continue from its (empty) suffix.
   */
  function Resync(rest: Tokens, next: Tokens): (r: Tokens)
    requires |next.toks| == 1
    ensures r == rest || r == TakeSplit(next, 1).0
    decreases |rest.toks|
  {
    if KeepSkipping(rest) then
      var (r, n) := TakeSplit(next, 1);
      Resync(r, n)
    else rest
  }

  /** One `while` loop of `recover_from_error`, reassigning `rest` and `next_token`. */
  method ResyncLoop(rest0: Tokens, next0: Tokens) returns (rest: Tokens)
    requires |next0.toks| == 1
    ensures rest == Resync(rest0, next0)
  {
    rest := rest0;
    var nextToken := next0;
    var continueLoop := KeepSkipping(rest);
    while continueLoop
      invariant |nextToken.toks| == 1
      invariant continueLoop == KeepSkipping(rest)
      invariant Resync(rest, nextToken) == Resync(rest0, next0)
      decreases |rest.toks|
    {
      var (r, n) := TakeSplit(nextToken, 1);
      rest := r;
      nextToken := n;
      continueLoop := KeepSkipping(rest);
    }
  }

  /**
   * The loop stops at once on an empty stream or at `;`; otherwise it runs
   * once and ends on the empty suffix of the one-token `next`, located at
   * the end of that token.
   */
  lemma ResyncResult(rest: Tokens, next: Tokens)
    requires |next.toks| == 1
    ensures !KeepSkipping(rest) ==> Resync(rest, next) == rest
    ensures KeepSkipping(rest) ==>
      Resync(rest, next) == Tokens([], TokenSpan(next.toks[0]).end)
    ensures |Resync(rest, next).toks| == 0 ||
      Resync(rest, next).toks[0].tok == Separator(';')
  {
    if KeepSkipping(rest) {
      var (r, n) := TakeSplit(next, 1);
      assert |r.toks| == 0;
      assert Resync(r, n) == r;
    }
  }

  /** The last frame's text, which the `Stack` branch reports. */
  function ContextText(e: ErrTree): string
    requires e.Stack? && WellFormed(e)
  {
    e.contexts[|e.contexts| - 1].context.text
  }

  /** The stream and span of the `Stack` branch, before reporting. */
  function StackRecovery(location: Tokens): (r: (Tokens, Range))
    ensures |location.toks| == 0 ==> r == (location, StreamSpan(location))
    ensures |location.toks| > 0 ==> r.1 == StreamSpan(TakeSplit(location, 1).1)
    ensures |location.toks| > 0 ==>
      r.0 == Resync(TakeSplit(location, 1).0, TakeSplit(location, 1).1)
  {
    if |location.toks| == 0 then (location, StreamSpan(location))
    else
      var (rest, first) := TakeSplit(location, 1);
      (Resync(rest, first), StreamSpan(first))
  }

  /**
   * `recover_from_error`: a `Base` error stays an error; a `Stack` is always
   * recovered with one diagnostic; an `Alt` tries its branches in order.
   */
  function RecoverFromError(e: ErrTree, diags: seq<Diagnostic>): (r: (Recovery, seq<Diagnostic>))
    requires WellFormed(e)
    ensures r.0.Unrecovered? ==> r.1 == diags
    ensures r.0.Recovered? ==> |r.1| == |diags| + 1 && r.1[..|diags|] == diags
    ensures e.Base? ==> r == (Unrecovered(e), diags)
    ensures e.Stack? ==>
      r.0.Recovered? && r.1 == diags + [Diagnostic(r.0.span, ContextText(e))]
    ensures e.Alt? && r.0.Unrecovered? ==> r.0.err.Alt? && |r.0.err.branches| == |e.branches|
    decreases e, 1
  {
    match e
    case Base(_, _) => (Unrecovered(e), diags)
    case Stack(_, contexts) =>
      var frame := contexts[|contexts| - 1];
      var (rest, span) := StackRecovery(frame.location);
      (Recovered(rest, span), diags + [Diagnostic(span, frame.context.text)])
    case Alt(v) => RecoverAlt(v, 0, [], diags)
  }

  /**
   * The `for` loop of the `Alt` branch from branch `i` on, with the errors
   * of the branches before `i` in `acc`.
   */
  function RecoverAlt(v: seq<ErrTree>, i: nat, acc: seq<ErrTree>, diags: seq<Diagnostic>): (r: (Recovery, seq<Diagnostic>))
    requires i <= |v| && |acc| == i
    requires forall k :: 0 <= k < |v| ==> WellFormed(v[k])
    ensures r.0.Unrecovered? ==> r.1 == diags && r.0.err.Alt? && |r.0.err.branches| == |v|
    ensures r.0.Unrecovered? ==> r.0.err.branches[..i] == acc
    ensures r.0.Unrecovered? ==> forall k :: i <= k < |v| ==>
      RecoverFromError(v[k], diags).0 == Unrecovered(r.0.err.branches[k])
    ensures r.0.Recovered? ==>
      exists k :: i <= k < |v| && r == RecoverFromError(v[k], diags) &&
        forall j :: i <= j < k ==> RecoverFromError(v[j], diags).0.Unrecovered?
    ensures r.0.Recovered? ==> |r.1| == |diags| + 1 && r.1[..|diags|] == diags
    decreases v, 0, |v| - i
  {
    if i == |v| then (Unrecovered(Alt(acc)), diags)
    else
      var here := RecoverFromError(v[i], diags);
      if here.0.Recovered? then here
      else
        var r := RecoverAlt(v, i + 1, acc + [here.0.err], diags);
        assert r.0.Unrecovered? ==> r.0.err.branches[..i] == (acc + [here.0.err])[..i];
        r
  }

  /**
   * For an `Alt`, the first branch that recovers decides the outcome; when
   * none does, the error is the `Alt` of the branches' errors in order and
   * nothing is reported.
   */
  lemma AltRecovery(v: seq<ErrTree>, diags: seq<Diagnostic>)
    requires WellFormed(Alt(v))
    ensures var r := RecoverFromError(Alt(v), diags);
      (r.0.Unrecovered? ==>
        r.1 == diags && |r.0.err.branches| == |v| &&
        forall k :: 0 <= k < |v| ==> RecoverFromError(v[k], diags).0 == Unrecovered(r.0.err.branches[k])) &&
      (r.0.Recovered? ==>
        exists k :: 0 <= k < |v| && r == RecoverFromError(v[k], diags) &&
          forall j :: 0 <= j < k ==> RecoverFromError(v[j], diags).0.Unrecovered?)
  {
  }

  /**
   * A `Stack` recovery reports from the offset of the last frame's stream to
   * the end of its first token (or at the empty stream itself), and continues from a
   * stream that is empty or starts with `;`.
   */
  lemma StackRecoveryStream(e: ErrTree, diags: seq<Diagnostic>)
    requires e.Stack? && WellFormed(e)
    ensures var loc := e.contexts[|e.contexts| - 1].location;
      var r := RecoverFromError(e, diags);
      (|loc.toks| == 0 ==> r.0 == Recovered(loc, StreamSpan(loc))) &&
      (|loc.toks| > 0 ==>
        r.0.span == StreamSpan(TakeSplit(loc, 1).1) &&
        (|r.0.rest.toks| == 0 || r.0.rest.toks[0].tok == Separator(';')))
  {
    var loc := e.contexts[|e.contexts| - 1].location;
    if |loc.toks| > 0 {
      ResyncResult(TakeSplit(loc, 1).0, TakeSplit(loc, 1).1);
    }
  }

  /**
   * When the stream holds no `;` (as with every stream the lexer produces), a
   * `Stack` recovery on a non-empty stream continues from the empty stream
   * at the end of the first token.
   */
  lemma StackRecoveryWithoutSemicolon(e: ErrTree, diags: seq<Diagnostic>)
    requires e.Stack? && WellFormed(e)
    requires var loc := e.contexts[|e.contexts| - 1].location;
      |loc.toks| > 0 && forall t :: t in loc.toks ==> t.tok != Separator(';')
    ensures var loc := e.contexts[|e.contexts| - 1].location;
      RecoverFromError(e, diags).0.rest == Tokens([], TokenSpan(loc.toks[0]).end)
  {
    var loc := e.contexts[|e.contexts| - 1].location;
    var (rest, first) := TakeSplit(loc, 1);
    assert rest.toks == loc.toks[1..];
    if |rest.toks| > 0 {
      assert rest.toks[0] in loc.toks;
      assert KeepSkipping(rest);
    }
    ResyncResult(rest, first);
    assert first.toks[0] == loc.toks[0];
    if !KeepSkipping(rest) {
      assert |rest.toks| == 0;
      assert rest.offset == TokenSpan(first.toks[0]).end;
    }
  }

  /** The result of recovery as the parser's result: `(Err(ParserError), span)` on success. */
  function AsParsed<T>(r: Recovery): (s: PResult<Spanned<Parsed<T>>>)
    ensures r.Recovered? ==> s == Done(r.rest, Spanned(ParserError, r.span))
    ensures r.Unrecovered? ==> s == Error(r.err)
  {
    match r
    case Recovered(rest, span) => Done(rest, Spanned(ParserError, span))
    case Unrecovered(err) => Error(err)
  }

  /**
   * `expression_recovery`: success passes through; a soft or committed error
   * goes to `recover_from_error`, whose unrecovered error is soft.
   */
  function ExpressionRecovery<T>(r: PResult<Spanned<Parsed<T>>>, diags: seq<Diagnostic>): (s: (PResult<Spanned<Parsed<T>>>, seq<Diagnostic>))
    requires !r.Done? ==> WellFormed(r.err)
    ensures r.Done? ==> s == (r, diags)
    ensures !r.Done? ==> s == (AsParsed(RecoverFromError(r.err, diags).0), RecoverFromError(r.err, diags).1)
    ensures !r.Done? && r.err.Base? ==> s == (Error(r.err), diags)
  {
    if r.Done? then (r, diags)
    else
      var rec := RecoverFromError(r.err, diags);
      (AsParsed(rec.0), rec.1)
  }

  /**
   * `recover_from_error` as the source runs it: recursion over the tree, a
   * `for` loop collecting the `Alt` errors with `push`, the `while` loop for
   * resynchronisation and `report_error` on the sink.
   */
  method RecoverFromErrorInto(e: ErrTree, sink: Sink) returns (r: Recovery)
    requires WellFormed(e)
    modifies sink
    ensures (r, sink.diags) == RecoverFromError(e, old(sink.diags))
    decreases e
  {
    match e {
      case Base(_, _) =>
        r := Unrecovered(e);
      case Stack(_, contexts) =>
        var frame := contexts[|contexts| - 1];
        var rest: Tokens, span: Range;
        if |frame.location.toks| == 0 {
          rest, span := frame.location, StreamSpan(frame.location);
        } else {
          var (rest0, first) := TakeSplit(frame.location, 1);
          rest := ResyncLoop(rest0, first);
          span := StreamSpan(first);
        }
        sink.ReportError(Diagnostic(span, frame.context.text));
        r := Recovered(rest, span);
      case Alt(v) =>
        var v2: seq<ErrTree> := [];
        var i := 0;
        while i < |v|
          invariant i <= |v| && |v2| == i
          invariant sink.diags == old(sink.diags)
          invariant RecoverAlt(v, i, v2, sink.diags) == RecoverFromError(e, old(sink.diags))
        {
          var here := RecoverFromErrorInto(v[i], sink);
          if here.Recovered? {
            return here;
          }
          v2 := v2 + [here.err];
          i := i + 1;
        }
        r := Unrecovered(Alt(v2));
    }
  }
}
