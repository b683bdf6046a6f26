/**
 * The translation of the parser's tree into the span-free tree the diagram
 * generators read (dialang/src/clean_ast.rs): spans are dropped, optional
 * texts keep their presence, and method bodies are flattened into one list
 * of statements.
 */
module CleanAst {
  import opened Wrappers
  import Tok
  import Ast

  datatype Statement =
    | AssignmentStatement(name: string, expr: seq<Statement>)
    | FuncCallStatement(root: string, access: Option<string>, args: seq<string>)

  datatype Attribute = Attribute(name: string, ty: Option<string>)

  datatype Method = Method(name: string, parameters: seq<Attribute>, retType: Option<string>, body: seq<Statement>)

  datatype Class = Class(name: string, attributes: seq<Attribute>, methods: seq<Method>)

  /** An annotation and the parser expressions it applies to. */
  datatype AnnotatedBlock = AnnotatedBlock(annotation: Tok.Annotation, elements: seq<Ast.Expr>)

  datatype TopLevelStatement = ClassStatement(cls: Class) | AnnotatedStatement(block: AnnotatedBlock)

  /** The text of an optional spanned text, with `Some`/`None` kept. */
  function Text(t: Option<Ast.Spanned<string>>): (r: Option<string>)
    ensures r.Some? <==> t.Some?
    ensures t.Some? ==> r.value == t.value.value
  {
    match t
    case Some(s) => Some(s.value)
    case None => None
  }

  /** `clean_parser_top_lvl_statement`. */
  function CleanTopLevel(s: Ast.TopLevelStatement): (r: TopLevelStatement)
    ensures s.ClassStatement? <==> r.ClassStatement?
    ensures s.ClassStatement? ==> r.cls == CleanClass(s.cls)
    ensures s.AnnotatedStatement? ==> r.block == CleanAnnotatedBlock(s.annotated)
  {
    match s
    case ClassStatement(c) => ClassStatement(CleanClass(c))
    case AnnotatedStatement(a) => AnnotatedStatement(CleanAnnotatedBlock(a))
  }

  /**
   * `clean_parser_annotated_block`: a `SequenceEntrypoint` block becomes that
   * annotation over exactly one function-call expression, its call.
   */
  function CleanAnnotatedBlock(a: Ast.AnnotatedBlock): (r: AnnotatedBlock)
    ensures r.annotation == Tok.SequenceEntrypoint
    ensures r.elements == [Ast.FuncCallExpr(a.block.entry)]
  {
    match a
    case SequenceEntrypoint(block) => AnnotatedBlock(Tok.SequenceEntrypoint, [Ast.FuncCallExpr(block.entry)])
  }

  /** `clean_parser_attribute`: the name and the optional type, as texts. */
  function CleanAttribute(a: Ast.Attribute): (r: Attribute)
    ensures r.name == a.name.value
    ensures r.ty.Some? <==> a.ty.Some?
    ensures a.ty.Some? ==> r.ty.value == a.ty.value.value
  {
    Attribute(a.name.value, Text(a.ty))
  }

  /** The `map(clean_parser_attribute).collect()` over spanned attributes. */
  function CleanAttributes(s: seq<Ast.Spanned<Ast.Attribute>>): (r: seq<Attribute>)
    ensures |r| == |s|
    ensures forall i :: 0 <= i < |s| ==> r[i] == CleanAttribute(s[i].value)
  {
    if |s| == 0 then [] else [CleanAttribute(s[0].value)] + CleanAttributes(s[1..])
  }

  /** `clean_parser_class`: the name text, then attributes and methods converted in order. */
  function CleanClass(c: Ast.Class): (r: Class)
    ensures r.name == c.name.value
    ensures r.attributes == CleanAttributes(c.attributes)
    ensures |r.methods| == |c.methods|
    ensures forall i :: 0 <= i < |c.methods| ==> r.methods[i] == CleanMethod(c.methods[i].value)
  {
    Class(c.name.value, CleanAttributes(c.attributes), CleanMethods(c.methods))
  }

  function CleanMethods(s: seq<Ast.Spanned<Ast.Method>>): (r: seq<Method>)
    ensures |r| == |s|
    ensures forall i :: 0 <= i < |s| ==> r[i] == CleanMethod(s[i].value)
  {
    if |s| == 0 then [] else [CleanMethod(s[0].value)] + CleanMethods(s[1..])
  }

  /**
   * `clean_parser_method`: name, parameters in order and return type as
   * texts; an absent body is an empty statement list.
   */
  function CleanMethod(m: Ast.Method): (r: Method)
    ensures r.name == m.name.value
    ensures r.parameters == CleanAttributes(m.parameters)
    ensures r.retType == Text(m.retType)
    ensures m.body.None? ==> r.body == []
    ensures m.body.Some? ==> r.body == ToStatements(m.body.value.value)
  {
    var body := match m.body
      case Some(b) => ToStatements(b.value)
      case None => [];
    Method(m.name.value, CleanAttributes(m.parameters), Text(m.retType), body)
  }

  /** The texts of spanned texts, in order. */
  function Texts(s: seq<Ast.Spanned<string>>): (r: seq<string>)
    ensures |r| == |s|
    ensures forall i :: 0 <= i < |s| ==> r[i] == s[i].value
  {
    if |s| == 0 then [] else [s[0].value] + Texts(s[1..])
  }

  /** The one statement a function call becomes. */
  function CallStatement(f: Ast.FuncCall): Statement
  {
    FuncCallStatement(f.root.value, Text(f.access), Texts(f.args))
  }

  /**
   * `parserexpr_to_statement`: a call is one statement, an assignment is
   * one statement over its converted expression (its type is dropped), a
   * list is the concatenation of its converted elements, and the error
   * marker is nothing.
   */
  function ToStatements(e: Ast.Expr): (r: seq<Statement>)
    decreases e, 1
  {
    match e
    case FuncCallExpr(f) => [CallStatement(f)]
    case AssignmentExpr(a) => [AssignmentStatement(a.name.value, ToStatements(a.expr.value))]
    case ExprList(es) => ToStatementsPrefix(es, |es|)
    case ErrorExpr => []
  }

  /** The converted elements `es[..k]`, concatenated in order: the value of `v` after `k` rounds of the loop. */
  function ToStatementsPrefix(es: seq<Ast.Spanned<Ast.Expr>>, k: nat): (r: seq<Statement>)
    requires k <= |es|
    decreases es, 0, k
  {
    if k == 0 then [] else ToStatementsPrefix(es, k - 1) + ElementStatements(es[k - 1])
  }

  /** The conversion of one spanned element of a list, its span dropped. */
  function ElementStatements(s: Ast.Spanned<Ast.Expr>): (r: seq<Statement>)
    decreases s, 2
  {
    ToStatements(s.value)
  }

  /** The `ExprList` branch as the source runs it: a `for` loop extending `v`. */
  method ParserExprToStatement(e: Ast.Expr) returns (v: seq<Statement>)
    ensures v == ToStatements(e)
    decreases e
  {
    match e {
      case FuncCallExpr(f) =>
        v := [FuncCallStatement(f.root.value, Text(f.access), Texts(f.args))];
      case AssignmentExpr(a) =>
        var inner := ParserExprToStatement(a.expr.value);
        v := [AssignmentStatement(a.name.value, inner)];
      case ExprList(es) =>
        v := [];
        for i := 0 to |es|
          invariant v == ToStatementsPrefix(es, i)
        {
          var part := ParserExprToStatement(es[i].value);
          v := v + part;
        }
      case ErrorExpr =>
        v := [];
    }
  }

  /** Converting a list concatenates the conversions of its two halves. */
  lemma {:induction false} ToStatementsPrefixSplit(es: seq<Ast.Spanned<Ast.Expr>>, k: nat, n: nat)
    requires k <= n <= |es|
    ensures ToStatementsPrefix(es, n) == ToStatementsPrefix(es, k) + ToStatementsPrefix(es[k..], n - k)
    decreases n
  {
    if n > k {
      ToStatementsPrefixSplit(es, k, n - 1);
      assert es[k..][n - 1 - k] == es[n - 1];
    }
  }

  /** A prefix of a list converts to the same statements as that prefix taken on its own. */
  lemma {:induction false} ToStatementsPrefixOfPrefix(es: seq<Ast.Spanned<Ast.Expr>>, k: nat)
    requires k <= |es|
    ensures ToStatementsPrefix(es, k) == ToStatementsPrefix(es[..k], k)
    decreases k
  {
    if k > 0 {
      ToStatementsPrefixOfPrefix(es, k - 1);
      ToStatementsPrefixOfPrefix(es[..k], k - 1);
      assert es[..k][..k - 1] == es[..k - 1];
    }
  }

  /** The conversion of `a + b` as one list is the conversion of `a` followed by that of `b`. */
  lemma ToStatementsConcat(a: seq<Ast.Spanned<Ast.Expr>>, b: seq<Ast.Spanned<Ast.Expr>>)
    ensures ToStatements(Ast.ExprList(a + b)) == ToStatements(Ast.ExprList(a)) + ToStatements(Ast.ExprList(b))
  {
    var es := a + b;
    ToStatementsPrefixSplit(es, |a|, |es|);
    ToStatementsPrefixOfPrefix(es, |a|);
    assert es[..|a|] == a;
    assert es[|a|..] == b;
  }

  /** A method body element as the grammar builds it: a call, or an assignment of a call. */
  predicate IsBodyStatement(e: Ast.Expr)
  {
    e.FuncCallExpr? || (e.AssignmentExpr? && e.assignment.expr.value.FuncCallExpr?)
  }

  /** The one statement a method body element becomes. */
  function BodyStatementOf(e: Ast.Expr): Statement
    requires IsBodyStatement(e)
  {
    if e.FuncCallExpr? then CallStatement(e.call)
    else AssignmentStatement(e.assignment.name.value, [CallStatement(e.assignment.expr.value.call)])
  }

  /**
   * A body of calls and assignments converts element by element: one
   * statement per element, in order, with an assignment's type dropped.
   */
  lemma {:induction false} BodyConvertsElementwise(es: seq<Ast.Spanned<Ast.Expr>>, k: nat)
    requires k <= |es|
    requires forall i :: 0 <= i < |es| ==> IsBodyStatement(es[i].value)
    ensures |ToStatementsPrefix(es, k)| == k
    ensures forall i :: 0 <= i < k ==> ToStatementsPrefix(es, k)[i] == BodyStatementOf(es[i].value)
    decreases k
  {
    if k > 0 {
      BodyConvertsElementwise(es, k - 1);
      var e := es[k - 1].value;
      if e.AssignmentExpr? {
        assert ToStatements(e.assignment.expr.value) == [CallStatement(e.assignment.expr.value.call)];
      }
      assert ToStatements(e) == [BodyStatementOf(e)];
    }
  }
}
