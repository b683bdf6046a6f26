/**
 * The syntax tree the grammar builds. Every node is paired with the
 * character range it was parsed from (`Spanned<T>`, a value and a
 * `Range<usize>`).
 */
module Ast {
  import opened Wrappers
  import opened Diag

  datatype Spanned<T> = Spanned(value: T, span: Range)

  /** `name [: type]`, used for class attributes and method parameters. */
  datatype Attribute = Attribute(name: Spanned<string>, ty: Option<Spanned<string>>)

  /** `root[.access](args, ...)`. */
  datatype FuncCall = FuncCall(root: Spanned<string>, access: Option<Spanned<string>>, args: seq<Spanned<string>>)

  datatype Expr =
    | FuncCallExpr(call: FuncCall)
    | AssignmentExpr(assignment: Assignment)
    | ExprList(exprs: seq<Spanned<Expr>>)
    | ErrorExpr

  /** `name [: type] = call`. */
  datatype Assignment = Assignment(name: Spanned<string>, expr: Spanned<Expr>, ty: Option<Spanned<string>>)

  datatype Method = Method(
    name: Spanned<string>,
    parameters: seq<Spanned<Attribute>>,
    retType: Option<Spanned<string>>,
    body: Option<Spanned<Expr>>)

  datatype Class = Class(name: Spanned<string>, attributes: seq<Spanned<Attribute>>, methods: seq<Spanned<Method>>)

  /** `function: Spanned<FuncCall>`, with the call and its span kept as two fields. */
  datatype SequenceEntrypointBlock = SequenceEntrypointBlock(entry: FuncCall, entrySpan: Range)

  datatype AnnotatedBlock = SequenceEntrypoint(block: SequenceEntrypointBlock)

  datatype TopLevelStatement = ClassStatement(cls: Class) | AnnotatedStatement(annotated: AnnotatedBlock)

  /** `Result<T, ParserError>`: a parsed value, or the marker left where recovery happened. */
  datatype Parsed<T> = Parsed(value: T) | ParserError
}
