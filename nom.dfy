/**
 * The parser-combinator results the grammar is built from: nom's
 * `Result<(I, O), Err<E>>` over the token stream, with nom_supreme's
 * `ErrorTree` as the error type, and the standard meaning of the
 * combinators the grammar uses (`tag`, `take`, `opt`, `eof`, `alt`,
 * `context`, `map_res`).
 */
module Nom {
  import opened Wrappers
  import opened Diag
  import opened Tok

  /** nom's `ErrorKind`, restricted to the kinds these parsers can raise. */
  datatype ErrorKind = TagKind | EofKind | MapResKind | Many0Kind | SeparatedListKind | AltKind

  /** nom_supreme's `BaseErrorKind`: a nom kind, or an external error carrying its message. */
  datatype BaseKind = Kind(kind: ErrorKind) | External(message: string)

  /** nom_supreme's `StackContext`. */
  datatype StackContext = KindContext(kind: ErrorKind) | Context(text: string)

  datatype Frame = Frame(location: Tokens, context: StackContext)

  /** nom_supreme's `GenericErrorTree` over token streams. */
  datatype ErrTree =
    | Base(location: Tokens, kind: BaseKind)
    | Stack(base: ErrTree, contexts: seq<Frame>)
    | Alt(branches: seq<ErrTree>)

  /**
   * The outcome of a parser: success with the rest of the input, a soft
   * `Err::Error` that lets alternatives backtrack, or a committed
   * `Err::Failure`. (`Err::Incomplete` is never produced by the complete
   * parsers used here.)
   */
  datatype PResult<T> = Done(rest: Tokens, value: T) | Error(err: ErrTree) | Failure(err: ErrTree)

  /** Re-types a failed result, keeping its error and its softness (the `?` operator). */
  function Propagate<T, U>(r: PResult<T>): (s: PResult<U>)
    requires !r.Done?
    ensures s.Error? == r.Error? && s.Failure? == r.Failure? && s.err == r.err
  {
    if r.Error? then Error(r.err) else Failure(r.err)
  }

  /** `rest` is what is left of `input` after dropping some leading tokens. */
  predicate IsSuffix(rest: Tokens, input: Tokens) {
    |rest.toks| <= |input.toks| && rest.toks == input.toks[|input.toks| - |rest.toks|..]
  }

  lemma SuffixTransitive(a: Tokens, b: Tokens, c: Tokens)
    requires IsSuffix(a, b) && IsSuffix(b, c)
    ensures IsSuffix(a, c)
  {
    assert a.toks == c.toks[|c.toks| - |b.toks|..][|b.toks| - |a.toks|..];
  }

  lemma SplitIsSuffix(ts: Tokens, count: nat)
    requires count <= |ts.toks|
    ensures IsSuffix(TakeSplit(ts, count).0, ts)
    ensures |TakeSplit(ts, count).0.toks| == |ts.toks| - count
  {
    var (suf, pre) := TakeSplit(ts, count);
    TakeSplitJoin(ts, count);
    assert pre.toks + suf.toks == ts.toks;
    assert suf.toks == ts.toks[count..];
  }

  /** nom_supreme's `ParseError::or`: the two errors as siblings of one `Alt`. */
  function Or(e1: ErrTree, e2: ErrTree): (r: ErrTree)
    ensures r.Alt?
  {
    match (e1, e2)
    case (Alt(s1), Alt(s2)) => Alt(s1 + s2)
    case (Alt(s1), _) => Alt(s1 + [e2])
    case (_, Alt(s2)) => Alt(s2 + [e1])
    case _ => Alt([e1, e2])
  }

  /** nom_supreme's `ParseError::append`: push a kind frame, except that an `Alt` absorbs an `Alt` kind. */
  function Append(location: Tokens, kind: ErrorKind, other: ErrTree): (r: ErrTree)
    ensures other.Alt? && kind == AltKind ==> r == other
  {
    var frame := Frame(location, KindContext(kind));
    match other
    case Alt(_) => if kind == AltKind then other else Stack(other, [frame])
    case Stack(base, contexts) => Stack(base, contexts + [frame])
    case Base(_, _) => Stack(other, [frame])
  }

  /** nom_supreme's `ContextError::add_context`: push a labelled frame. */
  function AddContext(location: Tokens, text: string, other: ErrTree): (r: ErrTree)
    ensures r.Stack? && |r.contexts| >= 1
    ensures r.contexts[|r.contexts| - 1] == Frame(location, Context(text))
    ensures other.Stack? ==> r == Stack(other.base, other.contexts + [Frame(location, Context(text))])
    ensures !other.Stack? ==> r == Stack(other, [Frame(location, Context(text))])
  {
    var frame := Frame(location, Context(text));
    match other
    case Stack(base, contexts) => Stack(base, contexts + [frame])
    case _ => Stack(other, [frame])
  }

  /** `.context(text)` applied to the result `r` of a parser run on `input`. */
  function WithContext<T>(r: PResult<T>, input: Tokens, text: string): (s: PResult<T>)
    ensures r.Done? ==> s == r
    ensures r.Error? ==> s == Error(AddContext(input, text, r.err))
    ensures r.Failure? ==> s == Failure(AddContext(input, text, r.err))
  {
    match r
    case Done(_, _) => r
    case Error(e) => Error(AddContext(input, text, e))
    case Failure(e) => Failure(AddContext(input, text, e))
  }

  /** `opt`: a soft error becomes `None` at the original input. */
  function Opt<T>(r: PResult<T>, input: Tokens): (s: PResult<Option<T>>)
    ensures r.Done? ==> s == Done(r.rest, Some(r.value))
    ensures r.Error? ==> s == Done(input, None)
    ensures r.Failure? ==> s == Failure(r.err)
  {
    match r
    case Done(rest, v) => Done(rest, Some(v))
    case Error(_) => Done(input, None)
    case Failure(e) => Failure(e)
  }

  /** `tag(t)`: one token equal to `t`, otherwise a soft `Tag` error at the input. */
  function Tag(input: Tokens, t: Token): (r: PResult<Tokens>)
    ensures r.Done? <==> |input.toks| > 0 && input.toks[0].tok == t
    ensures r.Done? ==> r == Done(TakeSplit(input, 1).0, TakeSplit(input, 1).1)
    ensures r.Done? ==> |r.rest.toks| == |input.toks| - 1
    ensures !r.Done? ==> r == Error(Base(input, Kind(TagKind)))
  {
    match Compare(input, t)
    case CompareOk =>
      
      var (rest, taken) := TakeSplit(input, 1);
      Done(rest, taken)
    case CompareError => Error(Base(input, Kind(TagKind)))
  }

  /** `take(count)`: `count` tokens, otherwise a soft `Eof` error at the input. */
  function TakeN(input: Tokens, count: nat): (r: PResult<Tokens>)
    ensures r.Done? <==> |input.toks| >= count
    ensures r.Done? ==> r == Done(TakeSplit(input, count).0, TakeSplit(input, count).1)
    ensures r.Done? ==> |r.rest.toks| == |input.toks| - count
    ensures !r.Done? ==> r == Error(Base(input, Kind(EofKind)))
  {
    match SliceIndexOf(input, count)
    case Index(n) =>
      
      var (rest, taken) := TakeSplit(input, n);
      Done(rest, taken)
    case Needed(_) => Error(Base(input, Kind(EofKind)))
  }

  /** `eof`: succeeds, consuming nothing, exactly on an empty stream. */
  function Eof(input: Tokens): (r: PResult<Tokens>)
    ensures r.Done? <==> |input.toks| == 0
    ensures r.Done? ==> r.rest == input
    ensures !r.Done? ==> r == Error(Base(input, Kind(EofKind)))
  {
    if |input.toks| == 0 then Done(input, input) else Error(Base(input, Kind(EofKind)))
  }

  /** The span attached by `spanned`/`map_with_span` to what was consumed from `input` up to `rest`. */
  function SpanOf(input: Tokens, rest: Tokens): Range
  {
    ConsumedSpan(input, StreamSpan(rest).start)
  }
}
