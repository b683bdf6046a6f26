/**
 * Tokens and the token stream the grammar runs over
 * (diaparser/src/token.rs).
 */
module Tok {
  import opened Wrappers
  import opened Diag

  datatype Keyword = Fn | If | Else | While | For | In | Class

  /** The closed set of annotation tags. */
  datatype Annotation = SequenceEntrypoint

  datatype Token =
    | K(kw: Keyword)
    | Op(op: string)
    | Ident(text: string)
    | Separator(sep: char)
    | Comment(comment: string)
    | Err
    | A(annotation: Annotation)

  /** `Token::not_comment`. */
  predicate NotComment(t: Token)
    ensures NotComment(t) <==> !t.Comment?
  {
    match t
    case Comment(_) => false
    case _ => true
  }

  /**
   * A located token (`TokSpan`): the token, the offset of its first
   * character and the number of characters it covers.
   */
  datatype TokSpan = TokSpan(tok: Token, start: nat, len: nat)

  /** `TokSpan::span`. */
  function TokenSpan(t: TokSpan): Range
  {
    Range(t.start, t.start + t.len)
  }

  /** `from_strspan`: a located token whose span is exactly `span`. */
  function FromStrSpan(token: Token, span: Range): (t: TokSpan)
    requires span.start <= span.end
    ensures t.tok == token && TokenSpan(t) == span
  {
    TokSpan(token, span.start, span.end - span.start)
  }

  /**
   * `Tokens`: a slice of located tokens plus the offset used for the span of
   * the stream when it is empty (and as the start of its span otherwise).
   */
  datatype Tokens = Tokens(toks: seq<TokSpan>, offset: nat)

  /** `Tokens::new`: a stream over all of `toks`, with offset 0. */
  function NewTokens(toks: seq<TokSpan>): Tokens
  {
    Tokens(toks, 0)
  }

  /** `Tokens::span`. */
  function StreamSpan(ts: Tokens): Range
  {
    if |ts.toks| == 0 then Range(ts.offset, ts.offset + 1)
    else Range(ts.offset, TokenSpan(ts.toks[|ts.toks| - 1]).end)
  }

  datatype CompareResult = CompareOk | CompareError

  /** `Compare::compare`: does the stream start with a token equal to `t`? */
  function Compare(ts: Tokens, t: Token): (r: CompareResult)
    ensures r == CompareOk <==> |ts.toks| > 0 && ts.toks[0].tok == t
  {
    if |ts.toks| == 0 || ts.toks[0].tok != t then CompareError else CompareOk
  }

  /** `InputIter::position`: the index of the first token satisfying `p`. */
  function Position(ts: Tokens, p: TokSpan -> bool): (r: Option<nat>)
    ensures r.Some? ==> r.value < |ts.toks| && p(ts.toks[r.value])
    ensures r.Some? ==> forall j :: 0 <= j < r.value ==> !p(ts.toks[j])
    ensures r.None? ==> forall j :: 0 <= j < |ts.toks| ==> !p(ts.toks[j])
  {
    PositionFrom(ts.toks, p, 0)
  }

  function PositionFrom(toks: seq<TokSpan>, p: TokSpan -> bool, i: nat): (r: Option<nat>)
    requires i <= |toks|
    requires forall j :: 0 <= j < i ==> !p(toks[j])
    ensures r.Some? ==> i <= r.value < |toks| && p(toks[r.value])
    ensures r.Some? ==> forall j :: 0 <= j < r.value ==> !p(toks[j])
    ensures r.None? ==> forall j :: 0 <= j < |toks| ==> !p(toks[j])
    decreases |toks| - i
  {
    if i == |toks| then None
    else if p(toks[i]) then Some(i)
    else PositionFrom(toks, p, i + 1)
  }

  datatype SliceIndex = Index(count: nat) | Needed(missing: nat)

  /** `InputIter::slice_index`. */
  function SliceIndexOf(ts: Tokens, count: nat): (r: SliceIndex)
    ensures r == Index(count) <==> |ts.toks| >= count
    ensures r.Needed? ==> r.missing > 0 && |ts.toks| + r.missing == count
  {
    if |ts.toks| >= count then Index(count) else Needed(count - |ts.toks|)
  }

  /** `InputTake::take`: the first `count` tokens, offset reset to 0. */
  function Take(ts: Tokens, count: nat): (r: Tokens)
    requires count <= |ts.toks|
    ensures |r.toks| == count && r.offset == 0
    ensures forall i :: 0 <= i < count ==> r.toks[i] == ts.toks[i]
  {
    NewTokens(ts.toks[..count])
  }

  /**
   * `InputTake::take_split`: `(suffix, prefix)` where `prefix` holds the first
   * `count` tokens and keeps the offset.
   */
  function TakeSplit(ts: Tokens, count: nat): (r: (Tokens, Tokens))
    requires count <= |ts.toks|
    ensures |r.1.toks| == count && |r.0.toks| == |ts.toks| - count
    ensures r.1.offset == ts.offset
    ensures |r.0.toks| > 0 ==> r.0.offset == ts.toks[count].start
    ensures |r.0.toks| == 0 && count == 0 ==> r.0.offset == ts.offset
    ensures |r.0.toks| == 0 && count > 0 ==> r.0.offset == TokenSpan(ts.toks[0]).end
  {
    var prefix := ts.toks[..count];
    var suffix := ts.toks[count..];
    var sufOffset :=
      if |suffix| == 0 then (if |prefix| == 0 then ts.offset else TokenSpan(prefix[0]).end)
      else TokenSpan(suffix[0]).start;
    assert prefix + suffix == ts.toks;
    (Tokens(suffix, sufOffset), Tokens(prefix, ts.offset))
  }

  /** The two halves of a split put back together give the stream's tokens. */
  lemma TakeSplitJoin(ts: Tokens, count: nat)
    requires count <= |ts.toks|
    ensures TakeSplit(ts, count).1.toks + TakeSplit(ts, count).0.toks == ts.toks
  {
  }

  /** `take` and `take_split` agree on the tokens of the prefix; only the offset differs. */
  lemma TakeIsSplitPrefix(ts: Tokens, count: nat)
    requires count <= |ts.toks|
    ensures Take(ts, count).toks == TakeSplit(ts, count).1.toks
    ensures Take(ts, count).offset == 0 && TakeSplit(ts, count).1.offset == ts.offset
  {
    var t := Take(ts, count).toks;
    var p := TakeSplit(ts, count).1.toks;
    TakeSplitJoin(ts, count);
    assert |t| == |p| == count;
    forall i | 0 <= i < count ensures t[i] == p[i] {
      assert p[i] == (p + TakeSplit(ts, count).0.toks)[i];
    }
  }

  /**
   * The spans of the two halves of a split: the prefix's span starts where
   * the stream's does, and a non-empty suffix spans to the stream's end.
   */
  lemma TakeSplitSpans(ts: Tokens, count: nat)
    requires count <= |ts.toks|
    ensures StreamSpan(TakeSplit(ts, count).1).start == StreamSpan(ts).start
    ensures count < |ts.toks| ==>
      StreamSpan(TakeSplit(ts, count).0) == Range(ts.toks[count].start, StreamSpan(ts).end)
    ensures 0 < count && count == |ts.toks| ==>
      StreamSpan(TakeSplit(ts, count).1).end == StreamSpan(ts).end
  {
    var (suf, pre) := TakeSplit(ts, count);
    TakeSplitJoin(ts, count);
    if count < |ts.toks| {
      assert suf.toks[|suf.toks| - 1] == (pre.toks + suf.toks)[|ts.toks| - 1];
    }
    if 0 < count && count == |ts.toks| {
      assert pre.toks[count - 1] == (pre.toks + suf.toks)[count - 1];
    }
  }

  /**
   * The number of leading tokens that start before `next`: the run the
   * `consumed_span` loop walks before it breaks.
   */
  function LeadingRun(toks: seq<TokSpan>, next: nat): (k: nat)
    ensures k <= |toks|
    ensures forall j :: 0 <= j < k ==> toks[j].start < next
    ensures k < |toks| ==> toks[k].start >= next
  {
    if |toks| == 0 || toks[0].start >= next then 0
    else 1 + LeadingRun(toks[1..], next)
  }

  /**
   * `Tokens::consumed_span(next)`: from the start of the stream's span to the
   * end of the last token of the leading run starting before `next`, or an
   * empty range at the start when that run is empty.
   */
  function ConsumedSpan(ts: Tokens, next: nat): Range
  {
    var k := LeadingRun(ts.toks, next);
    var start := StreamSpan(ts).start;
    Range(start, if k == 0 then start else TokenSpan(ts.toks[k - 1]).end)
  }

  /** The `for` loop of `Tokens::consumed_span`, updating a mutable `end`. */
  method ComputeConsumedSpan(ts: Tokens, next: nat) returns (r: Range)
    ensures r == ConsumedSpan(ts, next)
  {
    var start := StreamSpan(ts).start;
    var end := start;
    var i := 0;
    while i < |ts.toks|
      invariant 0 <= i <= |ts.toks|
      invariant forall j :: 0 <= j < i ==> ts.toks[j].start < next
      invariant end == if i == 0 then start else TokenSpan(ts.toks[i - 1]).end
    {
      var tokSpan := TokenSpan(ts.toks[i]);
      if tokSpan.start >= next {
        break;
      } else {
        end := tokSpan.end;
      }
      i := i + 1;
    }
    LeadingRunIsFirstStop(ts.toks, next, i);
    r := Range(start, end);
  }

  /** Any index that closes a run of tokens starting before `next` is `LeadingRun`. */
  lemma {:induction false} LeadingRunIsFirstStop(toks: seq<TokSpan>, next: nat, i: nat)
    requires i <= |toks|
    requires forall j :: 0 <= j < i ==> toks[j].start < next
    requires i < |toks| ==> toks[i].start >= next
    ensures LeadingRun(toks, next) == i
  {
    if i > 0 {
      LeadingRunIsFirstStop(toks[1..], next, i - 1);
    }
  }
}
