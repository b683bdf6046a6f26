/**
 * The lexer (diaparser/src/lexer.rs): source characters to located tokens,
 * dropping whitespace and comments, turning every character no rule matches
 * into one `Err` token plus one diagnostic.
 *
 * Offsets are character offsets from the start of the input.
 */
module Lexer {
  import opened Wrappers
  import opened Diag
  import opened Tok

  /** The diagnostic text of the error branch, spelled as in the source. */
  const UnknownCharMessage: string := "Unkown (non-ASCII) character"

  /** The tag after `@` that the annotation rule accepts. */
  const AnnotationTag: string := "@SequenceEntrypoint"

  /** The keyword table of the identifier rule; `struct` is an alias of `class`. */
  const KeywordTable: map<string, Keyword> :=
    map["fn" := Fn, "if" := If, "else" := Else, "while" := While, "for" := For,
        "in" := In, "class" := Class, "struct" := Class]

  predicate IsAsciiAlpha(c: char) { 'a' <= c <= 'z' || 'A' <= c <= 'Z' }
  predicate IsAsciiDigit(c: char) { '0' <= c <= '9' }
  predicate IsWordChar(c: char) { IsAsciiAlpha(c) || IsAsciiDigit(c) || c == '_' }
  /** The characters of nom's `multispace1`. */
  predicate IsSpace(c: char) { c == ' ' || c == '\t' || c == '\r' || c == '\n' }
  predicate IsLineBreak(c: char) { c == '\r' || c == '\n' }
  /** The characters of the `ctrl` rule. */
  predicate IsSeparatorChar(c: char) {
    c == '(' || c == ')' || c == '{' || c == '}' || c == ',' || c == '.' || c == ':' || c == '#'
  }

  predicate StartsWithAt(src: string, pos: nat, lit: string) {
    pos + |lit| <= |src| && src[pos..pos + |lit|] == lit
  }

  /** One successful rule application: the token and the position after it. */
  datatype Lexeme = Lexeme(token: TokSpan, next: nat)

  /** A lexeme that starts at `pos`, makes progress and stays inside the input. */
  predicate Proper(src: string, pos: nat, l: Lexeme) {
    pos < l.next <= |src| && pos <= l.token.start && l.token.start + l.token.len <= l.next
  }

  /** The word rule's text mapped through the keyword table. */
  function KeywordOf(word: string): (t: Token)
    ensures t == if word in KeywordTable then K(KeywordTable[word]) else Ident(word)
  {
    if word == "fn" then K(Fn)
    else if word == "if" then K(If)
    else if word == "else" then K(Else)
    else if word == "while" then K(While)
    else if word == "for" then K(For)
    else if word == "in" then K(In)
    else if word == "class" then K(Class)
    else if word == "struct" then K(Class)
    else Ident(word)
  }

  /** The end of the longest run of word characters starting at `i`. */
  function WordEnd(src: string, i: nat): (e: nat)
    requires i <= |src|
    ensures i <= e <= |src|
    ensures forall k :: i <= k < e ==> IsWordChar(src[k])
    ensures e < |src| ==> !IsWordChar(src[e])
    decreases |src| - i
  {
    if i < |src| && IsWordChar(src[i]) then WordEnd(src, i + 1) else i
  }

  /** The end of the longest run of whitespace characters starting at `i`. */
  function SpaceEnd(src: string, i: nat): (e: nat)
    requires i <= |src|
    ensures i <= e <= |src|
    ensures forall k :: i <= k < e ==> IsSpace(src[k])
    ensures e < |src| ==> !IsSpace(src[e])
    decreases |src| - i
  {
    if i < |src| && IsSpace(src[i]) then SpaceEnd(src, i + 1) else i
  }

  /** `take_until`: the first occurrence of `c` at or after `i`. */
  function FindFrom(src: string, i: nat, c: char): (r: Option<nat>)
    requires i <= |src|
    ensures r.Some? ==> i <= r.value < |src| && src[r.value] == c
    ensures r.Some? ==> forall k :: i <= k < r.value ==> src[k] != c
    ensures r.None? ==> forall k :: i <= k < |src| ==> src[k] != c
    decreases |src| - i
  {
    if i == |src| then None
    else if src[i] == c then Some(i)
    else FindFrom(src, i + 1, c)
  }

  /** The first line-break character at or after `i`, or the end of the input. */
  function LineBreakFrom(src: string, i: nat): (k: nat)
    requires i <= |src|
    ensures i <= k <= |src|
    ensures forall j :: i <= j < k ==> !IsLineBreak(src[j])
    ensures k < |src| ==> IsLineBreak(src[k])
    decreases |src| - i
  {
    if i == |src| || IsLineBreak(src[i]) then i else LineBreakFrom(src, i + 1)
  }

  /**
   * nom's `not_line_ending`: text up to `\n` or `\r\n` (or the end); it fails
   * on a `\r` that is not followed by `\n`.
   */
  function LineEnd(src: string, i: nat): (r: Option<nat>)
    requires i <= |src|
    ensures r.Some? ==> i <= r.value <= |src|
    ensures r.Some? ==> forall j :: i <= j < r.value ==> !IsLineBreak(src[j])
    ensures r.Some? ==> r.value == |src| || src[r.value] == '\n' || (src[r.value] == '\r' && r.value + 1 < |src| && src[r.value + 1] == '\n')
    ensures r.Some? ==> r.value == LineBreakFrom(src, i)
    ensures r.None? <==>
      LineBreakFrom(src, i) < |src| && src[LineBreakFrom(src, i)] == '\r' &&
      !(LineBreakFrom(src, i) + 1 < |src| && src[LineBreakFrom(src, i) + 1] == '\n')
  {
    var k := LineBreakFrom(src, i);
    if k == |src| || src[k] == '\n' then Some(k)
    else if k + 1 < |src| && src[k + 1] == '\n' then Some(k)
    else None
  }

  /** `comment`: `//` and the rest of the line; the token covers the text after `//`. */
  function CommentRule(src: string, pos: nat): (r: Option<Lexeme>)
    requires pos <= |src|
    ensures r.Some? ==> Proper(src, pos, r.value) && r.value.token.tok.Comment?
    ensures r.Some? <==> StartsWithAt(src, pos, "//") && LineEnd(src, pos + 2).Some?
    ensures r.Some? ==> r.value.next == LineEnd(src, pos + 2).value
    ensures r.Some? ==> r.value.token.tok == Comment(src[pos + 2..r.value.next])
  {
    if !StartsWithAt(src, pos, "//") then None
    else match LineEnd(src, pos + 2)
      case None => None
      case Some(e) => Some(Lexeme(FromStrSpan(Comment(src[pos + 2..e]), Range(pos + 2, e)), e))
  }

  /** `multispace1`. */
  function WhitespaceRule(src: string, pos: nat): (r: Option<Lexeme>)
    requires pos <= |src|
    ensures r.Some? ==> Proper(src, pos, r.value) && r.value.token.tok.Comment?
    ensures r.Some? <==> pos < |src| && IsSpace(src[pos])
  {
    if pos < |src| && IsSpace(src[pos]) then
      var e := SpaceEnd(src, pos);
      Some(Lexeme(FromStrSpan(Comment(src[pos..e]), Range(pos, e)), e))
    else None
  }

  /** `padding`: a comment or a run of whitespace, both carried as `Comment` tokens. */
  function PaddingRule(src: string, pos: nat): (r: Option<Lexeme>)
    requires pos <= |src|
    ensures r.Some? ==> Proper(src, pos, r.value) && r.value.token.tok.Comment?
  {
    match CommentRule(src, pos)
    case Some(l) => Some(l)
    case None => WhitespaceRule(src, pos)
  }

  /**
   * `raw`: a backtick-quoted identifier; the token's text and span are the
   * characters strictly between the backticks.
   */
  function RawRule(src: string, pos: nat): (r: Option<Lexeme>)
    requires pos <= |src|
    ensures r.Some? ==> Proper(src, pos, r.value) && pos + 2 <= r.value.next
    ensures r.Some? ==> src[pos] == '`' && src[r.value.next - 1] == '`'
    ensures r.Some? ==> r.value.token.tok == Ident(src[pos + 1..r.value.next - 1])
    ensures r.Some? ==> TokenSpan(r.value.token) == Range(pos + 1, r.value.next - 1)
    ensures r.Some? ==> forall k :: pos + 1 <= k < r.value.next - 1 ==> src[k] != '`'
    ensures r.None? <==> !(pos < |src| && src[pos] == '`' && FindFrom(src, pos + 1, '`').Some?)
  {
    if pos < |src| && src[pos] == '`' then
      match FindFrom(src, pos + 1, '`')
      case None => None
      case Some(q) => Some(Lexeme(FromStrSpan(Ident(src[pos + 1..q]), Range(pos + 1, q)), q + 1))
    else None
  }

  /** `op`: the operator `=`. */
  function OperatorRule(src: string, pos: nat): (r: Option<Lexeme>)
    requires pos <= |src|
    ensures r.Some? ==> Proper(src, pos, r.value)
    ensures r.Some? <==> pos < |src| && src[pos] == '='
    ensures r.Some? ==> r.value.token == TokSpan(Op("="), pos, 1)
  {
    if pos < |src| && src[pos] == '=' then
      Some(Lexeme(FromStrSpan(Op("="), Range(pos, pos + 1)), pos + 1))
    else None
  }

  /** `ctrl`: one of the eight separator characters. */
  function CtrlRule(src: string, pos: nat): (r: Option<Lexeme>)
    requires pos <= |src|
    ensures r.Some? ==> Proper(src, pos, r.value)
    ensures r.Some? <==> pos < |src| && IsSeparatorChar(src[pos])
    ensures r.Some? ==> r.value.token == TokSpan(Separator(src[pos]), pos, 1)
  {
    if pos < |src| && IsSeparatorChar(src[pos]) then
      Some(Lexeme(FromStrSpan(Separator(src[pos]), Range(pos, pos + 1)), pos + 1))
    else None
  }

  /** `annotation`: `@SequenceEntrypoint`; the span leaves out the `@`. */
  function AnnotationRule(src: string, pos: nat): (r: Option<Lexeme>)
    requires pos <= |src|
    ensures r.Some? ==> Proper(src, pos, r.value)
    ensures r.Some? <==> StartsWithAt(src, pos, AnnotationTag)
    ensures r.Some? ==> r.value.token.tok == A(SequenceEntrypoint)
    ensures r.Some? ==> TokenSpan(r.value.token) == Range(pos + 1, pos + |AnnotationTag|)
  {
    if StartsWithAt(src, pos, AnnotationTag) then
      Some(Lexeme(FromStrSpan(A(SequenceEntrypoint), Range(pos + 1, pos + |AnnotationTag|)), pos + |AnnotationTag|))
    else None
  }

  /**
   * `ident`: a letter or `_` followed greedily by letters, digits and `_`,
   * looked up in the keyword table.
   */
  function IdentRule(src: string, pos: nat): (r: Option<Lexeme>)
    requires pos <= |src|
    ensures r.Some? ==> Proper(src, pos, r.value)
    ensures r.Some? <==> pos < |src| && (IsAsciiAlpha(src[pos]) || src[pos] == '_')
    ensures r.Some? ==> r.value.token == TokSpan(KeywordOf(src[pos..r.value.next]), pos, r.value.next - pos)
    ensures r.Some? ==> forall k :: pos <= k < r.value.next ==> IsWordChar(src[k])
    ensures r.Some? ==> r.value.next < |src| ==> !IsWordChar(src[r.value.next])
  {
    if pos < |src| && (IsAsciiAlpha(src[pos]) || src[pos] == '_') then
      var e := WordEnd(src, pos);
      Some(Lexeme(FromStrSpan(KeywordOf(src[pos..e]), Range(pos, e)), e))
    else None
  }

  /** `choice`: the first alternative that matches. */
  function OrElse(a: Option<Lexeme>, b: Option<Lexeme>): Option<Lexeme>
  {
    if a.Some? then a else b
  }

  /** `token`: raw identifier, `=`, separator, annotation, identifier or keyword, in that order. */
  function TokenRule(src: string, pos: nat): (r: Option<Lexeme>)
    requires pos <= |src|
    ensures r.Some? ==> Proper(src, pos, r.value) && !r.value.token.tok.Comment?
    ensures r.Some? ==> !r.value.token.tok.Err? && r.value.token.tok != Separator(';')
  {
    OrElse(RawRule(src, pos), OrElse(OperatorRule(src, pos), OrElse(CtrlRule(src, pos),
      OrElse(AnnotationRule(src, pos), IdentRule(src, pos)))))
  }

  /** `pos_inputs`: padding is tried before tokens. */
  function Rule(src: string, pos: nat): (r: Option<Lexeme>)
    requires pos <= |src|
    ensures r.Some? ==> Proper(src, pos, r.value)
    ensures r.Some? ==> !r.value.token.tok.Err? && r.value.token.tok != Separator(';')
  {
    OrElse(PaddingRule(src, pos), TokenRule(src, pos))
  }

  /**
   * The rules never compete: at any position at most one of them matches,
   * so the fixed priority order decides nothing beyond which rule that is.
   */
  lemma RulesAreExclusive(src: string, pos: nat)
    requires pos <= |src|
    ensures var rs := [CommentRule(src, pos), WhitespaceRule(src, pos), RawRule(src, pos),
                       OperatorRule(src, pos), CtrlRule(src, pos), AnnotationRule(src, pos),
                       IdentRule(src, pos)];
            forall i, j :: 0 <= i < j < |rs| ==> !(rs[i].Some? && rs[j].Some?)
  {
    var rs := [CommentRule(src, pos), WhitespaceRule(src, pos), RawRule(src, pos),
               OperatorRule(src, pos), CtrlRule(src, pos), AnnotationRule(src, pos),
               IdentRule(src, pos)];
    if CommentRule(src, pos).Some? { assert src[pos] == "//"[0]; }
    if AnnotationRule(src, pos).Some? { assert src[pos] == AnnotationTag[0]; }
  }

  /** One turn of the `many_till` loop: a rule, or the one-character error recovery. */
  datatype Step = Step(token: TokSpan, next: nat, report: Option<Diagnostic>)

  function LexStep(src: string, pos: nat): (s: Step)
    requires pos < |src|
    ensures pos < s.next <= |src|
    ensures pos <= s.token.start && s.token.start + s.token.len <= s.next
    ensures s.token.tok != Separator(';')
    ensures s.report.Some? <==> s.token.tok.Err?
    ensures s.token.tok.Err? ==>
      s.next == pos + 1 && TokenSpan(s.token) == Range(pos, pos + 1) &&
      s.report == Some(Diagnostic(Range(pos, pos + 1), UnknownCharMessage))
    ensures s.token.tok.Err? <==> Rule(src, pos).None?
    ensures Rule(src, pos).Some? ==> s.token == Rule(src, pos).value.token && s.next == Rule(src, pos).value.next
  {
    match Rule(src, pos)
    case Some(l) => Step(l.token, l.next, None)
    case None =>
      var span := Range(pos, pos + 1);
      Step(FromStrSpan(Err, span), pos + 1, Some(Diagnostic(span, UnknownCharMessage)))
  }

  /** The `many_till(…, eof)` loop from `pos`: every token (comments included) and every report. */
  function LexFrom(src: string, pos: nat): (r: (seq<TokSpan>, seq<Diagnostic>))
    requires pos <= |src|
    decreases |src| - pos
  {
    if pos == |src| then ([], [])
    else
      var s := LexStep(src, pos);
      var rest := LexFrom(src, s.next);
      ([s.token] + rest.0,
       (if s.report.Some? then [s.report.value] else []) + rest.1)
  }

  /** The closing `filter(not_comment)`. */
  function DropComments(toks: seq<TokSpan>): (r: seq<TokSpan>)
    ensures forall i :: 0 <= i < |r| ==> NotComment(r[i].tok)
    ensures |r| <= |toks|
    ensures (forall i :: 0 <= i < |toks| ==> NotComment(toks[i].tok)) ==> r == toks
  {
    if |toks| == 0 then []
    else if NotComment(toks[0].tok) then [toks[0]] + DropComments(toks[1..])
    else DropComments(toks[1..])
  }

  /** What `lex` returns and what it appends to the diagnostics. */
  function Lexed(src: string): (seq<TokSpan>, seq<Diagnostic>)
  {
    var all := LexFrom(src, 0);
    (DropComments(all.0), all.1)
  }

  /** `lex`: the imperative loop over the input, reporting into `sink`. */
  method Lex(src: string, sink: Sink) returns (tokens: seq<TokSpan>)
    modifies sink
    ensures tokens == Lexed(src).0
    ensures sink.diags == old(sink.diags) + Lexed(src).1
  {
    ghost var whole := LexFrom(src, 0);
    ghost var reports: seq<Diagnostic> := [];
    var pos := 0;
    var all: seq<TokSpan> := [];
    while pos < |src|
      invariant pos <= |src|
      invariant all + LexFrom(src, pos).0 == whole.0
      invariant reports + LexFrom(src, pos).1 == whole.1
      invariant sink.diags == old(sink.diags) + reports
      decreases |src| - pos
    {
      var s := LexStep(src, pos);
      LexLoopStep(src, pos, all, reports, whole);
      if s.report.Some? {
        sink.ReportError(s.report.value);
      }
      reports := reports + Reported(s);
      all := all + [s.token];
      pos := s.next;
    }
    LexLoopEnd(src, pos, all, reports, whole);
    tokens := DropComments(all);
  }

  /** The diagnostic one step reports, if any. */
  function Reported(s: Step): seq<Diagnostic>
  {
    if s.report.Some? then [s.report.value] else []
  }

  /** One turn of the loop in `Lex` keeps its two invariants about `LexFrom`. */
  lemma LexLoopStep(src: string, pos: nat, all: seq<TokSpan>, reports: seq<Diagnostic>, whole: (seq<TokSpan>, seq<Diagnostic>))
    requires pos < |src|
    requires all + LexFrom(src, pos).0 == whole.0
    requires reports + LexFrom(src, pos).1 == whole.1
    ensures var s := LexStep(src, pos);
      (all + [s.token]) + LexFrom(src, s.next).0 == whole.0 &&
      (reports + Reported(s)) + LexFrom(src, s.next).1 == whole.1
  {
    var s := LexStep(src, pos);
    var rest := LexFrom(src, s.next);
    LexFromUnfold(src, pos);
    assert reports + (Reported(s) + rest.1) == (reports + Reported(s)) + rest.1;
    assert all + ([s.token] + rest.0) == (all + [s.token]) + rest.0;
  }

  /** When the loop in `Lex` stops, it has collected all of `LexFrom(src, 0)`. */
  lemma LexLoopEnd(src: string, pos: nat, all: seq<TokSpan>, reports: seq<Diagnostic>, whole: (seq<TokSpan>, seq<Diagnostic>))
    requires pos == |src|
    requires whole == LexFrom(src, 0)
    requires all + LexFrom(src, pos).0 == whole.0
    requires reports + LexFrom(src, pos).1 == whole.1
    ensures Lexed(src) == (DropComments(all), reports)
  {
    assert LexFrom(src, pos) == ([], []);
    assert all == whole.0 && reports == whole.1;
  }

  /** One turn of `LexFrom`. */
  lemma LexFromUnfold(src: string, pos: nat)
    ensures pos < |src| ==>
      var s := LexStep(src, pos);
      var rest := LexFrom(src, s.next);
      LexFrom(src, pos) == ([s.token] + rest.0, Reported(s) + rest.1)
  {
  }

  // ---- Properties of the lexer's output ----

  /** The diagnostics that the `Err` tokens of `toks` stand for, in order. */
  function ErrorReports(toks: seq<TokSpan>): seq<Diagnostic>
  {
    if |toks| == 0 then []
    else (if toks[0].tok.Err? then [Diagnostic(TokenSpan(toks[0]), UnknownCharMessage)] else [])
         + ErrorReports(toks[1..])
  }

  /** The number of `Err` tokens. */
  function CountErr(toks: seq<TokSpan>): nat
  {
    if |toks| == 0 then 0 else (if toks[0].tok.Err? then 1 else 0) + CountErr(toks[1..])
  }

  lemma {:induction false} ErrorReportsCount(toks: seq<TokSpan>)
    ensures |ErrorReports(toks)| == CountErr(toks)
  {
    if |toks| > 0 { ErrorReportsCount(toks[1..]); }
  }

  lemma {:induction false} LexFromReports(src: string, pos: nat)
    requires pos <= |src|
    ensures LexFrom(src, pos).1 == ErrorReports(LexFrom(src, pos).0)
    decreases |src| - pos
  {
    if pos < |src| {
      var s := LexStep(src, pos);
      LexFromReports(src, s.next);
      assert ([s.token] + LexFrom(src, s.next).0)[1..] == LexFrom(src, s.next).0;
    }
  }

  lemma {:induction false} DropCommentsKeepsReports(toks: seq<TokSpan>)
    ensures ErrorReports(DropComments(toks)) == ErrorReports(toks)
  {
    if |toks| > 0 {
      DropCommentsKeepsReports(toks[1..]);
      if NotComment(toks[0].tok) {
        assert ([toks[0]] + DropComments(toks[1..]))[1..] == DropComments(toks[1..]);
      }
    }
  }

  /**
   * Every diagnostic of the lexer is the one-character report of an `Err`
   * token, in the same order; so there are exactly as many diagnostics as
   * `Err` tokens.
   */
  lemma LexedReportsMatchErrTokens(src: string)
    ensures Lexed(src).1 == ErrorReports(Lexed(src).0)
    ensures |Lexed(src).1| == CountErr(Lexed(src).0)
  {
    LexFromReports(src, 0);
    DropCommentsKeepsReports(LexFrom(src, 0).0);
    ErrorReportsCount(Lexed(src).0);
  }

  lemma {:induction false} LexFromNoSemicolon(src: string, pos: nat)
    requires pos <= |src|
    ensures forall i :: 0 <= i < |LexFrom(src, pos).0| ==> LexFrom(src, pos).0[i].tok != Separator(';')
    decreases |src| - pos
  {
    if pos < |src| {
      LexFromNoSemicolon(src, LexStep(src, pos).next);
    }
  }

  lemma {:induction false} DropCommentsSubset(toks: seq<TokSpan>, t: TokSpan)
    requires t in DropComments(toks)
    ensures t in toks
  {
    if |toks| > 0 && t != toks[0] {
      if NotComment(toks[0].tok) {
        assert t in DropComments(toks[1..]);
      }
      DropCommentsSubset(toks[1..], t);
    }
  }

  /**
   * The filter keeps every token that is not a comment, in order: filtering
   * `a + b` filters `a` and then `b`, and one token is kept exactly when it
   * is not a comment. Together these determine the filter.
   */
  lemma {:induction false} DropCommentsAppend(a: seq<TokSpan>, b: seq<TokSpan>)
    ensures DropComments(a + b) == DropComments(a) + DropComments(b)
    decreases |a|
  {
    if |a| > 0 {
      DropCommentsAppend(a[1..], b);
      assert (a + b)[1..] == a[1..] + b;
    } else {
      assert a + b == b;
    }
  }

  lemma DropCommentsSingle(t: TokSpan)
    ensures DropComments([t]) == if NotComment(t.tok) then [t] else []
  {
    assert [t][1..] == [];
  }

  /** Every token that is not a comment survives the filter. */
  lemma KeepsNonComments(toks: seq<TokSpan>, i: nat)
    requires i < |toks| && NotComment(toks[i].tok)
    ensures toks[i] in DropComments(toks)
  {
    assert toks == toks[..i] + [toks[i]] + toks[i + 1..];
    DropCommentsAppend(toks[..i] + [toks[i]], toks[i + 1..]);
    DropCommentsAppend(toks[..i], [toks[i]]);
    DropCommentsSingle(toks[i]);
  }

  /**
   * The lexer's output holds no comment token and no `;` separator (`;` is
   * not a separator character), whatever the input.
   */
  lemma LexedTokenKinds(src: string)
    ensures forall t :: t in Lexed(src).0 ==> !t.tok.Comment? && t.tok != Separator(';')
  {
    LexFromNoSemicolon(src, 0);
    forall t | t in Lexed(src).0
      ensures !t.tok.Comment? && t.tok != Separator(';')
    {
      DropCommentsSubset(LexFrom(src, 0).0, t);
    }
  }

  /** Tokens lie inside `lo..hi` in order, each ending before the next starts. */
  predicate Sorted(toks: seq<TokSpan>, lo: nat, hi: nat)
  {
    |toks| == 0 ||
    (lo <= toks[0].start && toks[0].start + toks[0].len <= hi &&
     Sorted(toks[1..], toks[0].start + toks[0].len, hi))
  }

  lemma {:induction false} LexFromSorted(src: string, pos: nat)
    requires pos <= |src|
    ensures Sorted(LexFrom(src, pos).0, pos, |src|)
    decreases |src| - pos
  {
    if pos < |src| {
      var s := LexStep(src, pos);
      LexFromSorted(src, s.next);
      SortedFrom(LexFrom(src, s.next).0, s.token.start + s.token.len, s.next, |src|);
      assert ([s.token] + LexFrom(src, s.next).0)[1..] == LexFrom(src, s.next).0;
    }
  }

  lemma SortedFrom(toks: seq<TokSpan>, lo: nat, lo': nat, hi: nat)
    requires lo <= lo' && Sorted(toks, lo', hi)
    ensures Sorted(toks, lo, hi)
  {
  }

  lemma {:induction false} DropCommentsSorted(toks: seq<TokSpan>, lo: nat, hi: nat)
    requires Sorted(toks, lo, hi)
    ensures Sorted(DropComments(toks), lo, hi)
  {
    if |toks| > 0 {
      var e := toks[0].start + toks[0].len;
      DropCommentsSorted(toks[1..], e, hi);
      if NotComment(toks[0].tok) {
        assert ([toks[0]] + DropComments(toks[1..]))[1..] == DropComments(toks[1..]);
      } else {
        SortedFrom(DropComments(toks[1..]), lo, e, hi);
      }
    }
  }

  lemma LexFromDropSorted(src: string, pos: nat)
    ensures pos <= |src| ==> Sorted(DropComments(LexFrom(src, pos).0), pos, |src|)
  {
    if pos <= |src| {
      LexFromSorted(src, pos);
      DropCommentsSorted(LexFrom(src, pos).0, pos, |src|);
    }
  }

  /**
   * The tokens of `lex` lie inside the input, in increasing order, and do not
   * overlap.
   */
  lemma LexedSorted(src: string)
    ensures Sorted(Lexed(src).0, 0, |src|)
  {
    LexFromDropSorted(src, 0);
  }
}
