/**
 * The older syntax tree the class-diagram generator reads (the `Expr` of
 * diaparser/src/lib.rs).
 */
module LibAst {
  import opened Wrappers
  import opened Ast

  datatype Expr =
    | Class(name: Spanned<string>, attributes: seq<Spanned<Expr>>, methods: seq<Spanned<Expr>>)
    | Attribute(name: Spanned<string>, ty: Option<Spanned<string>>)
    | Method(name: Spanned<string>, parameters: seq<Spanned<Expr>>, retType: Option<Spanned<string>>)
    | ExprList(exprs: seq<Spanned<Expr>>)
    | Error
}

/**
 * The class-diagram generator (dialang/src/class_diag.rs). The XML
 * templates are not interpreted: each filled-in template is a `Cell`
 * recording the values substituted into it, and a diagram is the sequence
 * of its cells in output order.
 */
module ClassDiag {
  import opened Wrappers
  import Ast
  import opened LibAst

  const StartHeight: nat := 26
  const AttrHeight: nat := 26
  const SeparatorHeight: nat := 8
  const MethodHeight: nat := 26
  const Width: nat := 230
  const YPadding: nat := 100
  const XPadding: nat := 15
  /** The id of the diagram's root, the parent of every class. */
  const RootId: nat := 1

  /** One filled-in template; `class-diag-{n}` identifiers are kept as the number `n`. */
  datatype Cell =
    | TitleCell(id: nat, value: string, parent: nat, x: nat, y: nat, width: nat, height: nat)
    | AttributeCell(id: nat, value: string, parent: nat, y: nat)
    | SeparatorCell(id: nat, parent: nat, y: nat)
    | MethodCell(id: nat, value: string, parent: nat, y: nat)

  /** `name: type`, or `name` alone. */
  function AttributeText(e: Expr): string
    requires e.Attribute?
  {
    match e.ty
    case Some(t) => e.name.value + ": " + t.value
    case None => e.name.value
  }

  predicate AllAttributes(s: seq<Ast.Spanned<Expr>>)
  {
    forall i :: 0 <= i < |s| ==> s[i].value.Attribute?
  }

  /** The lines of `get_attributes`: one per attribute, in order. */
  function AttributeTexts(s: seq<Ast.Spanned<Expr>>): (r: seq<string>)
    requires AllAttributes(s)
    ensures |r| == |s|
  {
    if |s| == 0 then [] else AttributeTexts(s[..|s| - 1]) + [AttributeText(s[|s| - 1].value)]
  }

  /** Line `i` of `get_attributes` is the text of attribute `i`. */
  lemma {:induction false} AttributeTextsElementwise(s: seq<Ast.Spanned<Expr>>)
    requires AllAttributes(s)
    ensures forall i :: 0 <= i < |s| ==> AttributeTexts(s)[i] == AttributeText(s[i].value)
    decreases |s|
  {
    if |s| > 0 {
      AttributeTextsElementwise(s[..|s| - 1]);
    }
  }

  /** `get_attributes`: a loop pushing one line per attribute. */
  method GetAttributes(attributes: seq<Ast.Spanned<Expr>>) returns (v: seq<string>)
    requires AllAttributes(attributes)
    ensures v == AttributeTexts(attributes)
  {
    v := [];
    for i := 0 to |attributes|
      invariant v == AttributeTexts(attributes[..i])
    {
      assert attributes[..i + 1][..i] == attributes[..i];
      v := v + [AttributeText(attributes[i].value)];
    }
    assert attributes[..|attributes|] == attributes;
  }

  /**
   * The fold of `get_param_string` as written: the accumulator starts empty
   * and is returned unchanged while it is empty.
   */
  function FoldAsWritten(l: string, rs: seq<string>): string
    decreases |rs|
  {
    if |rs| == 0 then l
    else FoldAsWritten(if |l| > 0 then l + ", " + rs[0] else l, rs[1..])
  }

  /** `get_param_string` as written. */
  function ParamStringAsWritten(parameters: seq<Ast.Spanned<Expr>>): string
    requires AllAttributes(parameters)
  {
    FoldAsWritten("", AttributeTexts(parameters))
  }

  /** The fold as written never leaves the empty string. */
  lemma {:induction false} FoldAsWrittenStaysEmpty(rs: seq<string>)
    ensures FoldAsWritten("", rs) == ""
    decreases |rs|
  {
    if |rs| > 0 {
      FoldAsWrittenStaysEmpty(rs[1..]);
    }
  }

  /** Every parameter list, however long, is rendered as the empty string. */
  lemma ParamStringAsWrittenIsEmpty(parameters: seq<Ast.Spanned<Expr>>)
    requires AllAttributes(parameters)
    ensures ParamStringAsWritten(parameters) == ""
  {
    FoldAsWrittenStaysEmpty(AttributeTexts(parameters));
  }

  /** The fold as evidently intended: the first parameter starts the list. */
  function FoldJoin(l: string, rs: seq<string>): string
    decreases |rs|
  {
    if |rs| == 0 then l
    else FoldJoin(if |l| > 0 then l + ", " + rs[0] else rs[0], rs[1..])
  }

  /** The texts separated by `, `. */
  function Join(rs: seq<string>): string
  {
    if |rs| == 0 then "" else if |rs| == 1 then rs[0] else rs[0] + ", " + Join(rs[1..])
  }

  predicate NonEmptyTexts(rs: seq<string>)
  {
    forall i :: 0 <= i < |rs| ==> |rs[i]| > 0
  }

  lemma {:induction false} FoldJoinFrom(l: string, rs: seq<string>)
    requires |l| > 0 && NonEmptyTexts(rs)
    ensures FoldJoin(l, rs) == if |rs| == 0 then l else l + ", " + Join(rs)
    decreases |rs|
  {
    if |rs| > 0 {
      FoldJoinFrom(l + ", " + rs[0], rs[1..]);
      if |rs| > 1 {
        assert l + ", " + rs[0] + ", " + Join(rs[1..]) == l + ", " + (rs[0] + ", " + Join(rs[1..]));
      }
    }
  }

  /** With non-empty texts (identifiers always are), the intended fold is `Join`. */
  lemma FoldJoinIsJoin(rs: seq<string>)
    requires NonEmptyTexts(rs)
    ensures FoldJoin("", rs) == Join(rs)
  {
    if |rs| > 0 {
      FoldJoinFrom(rs[0], rs[1..]);
    }
  }

  /** `get_param_string` as evidently intended: the parameters separated by `, `. */
  function ParamString(parameters: seq<Ast.Spanned<Expr>>): string
    requires AllAttributes(parameters)
  {
    FoldJoin("", AttributeTexts(parameters))
  }

  /** A single parameter `x` is rendered as `x` by the intended fold, and dropped by the fold as written. */
  lemma OneParameterIsDropped(p: Ast.Spanned<Expr>)
    requires p.value.Attribute? && |p.value.name.value| > 0
    ensures ParamString([p]) == AttributeText(p.value) != ""
    ensures ParamStringAsWritten([p]) == ""
  {
    ParamStringAsWrittenIsEmpty([p]);
    assert AttributeTexts([p]) == [AttributeText(p.value)];
    assert FoldJoin("", [AttributeText(p.value)]) == FoldJoin(AttributeText(p.value), []);
  }

  predicate IsMethod(e: Expr)
  {
    e.Method? && AllAttributes(e.parameters)
  }

  predicate AllMethods(s: seq<Ast.Spanned<Expr>>)
  {
    forall i :: 0 <= i < |s| ==> IsMethod(s[i].value)
  }

  /**
   * `name(params): ret`, or `name(params)`, with the parameter list as
   * `get_param_string` writes it, which is always empty.
   */
  function MethodText(e: Expr): string
    requires IsMethod(e)
  {
    var head := e.name.value + "(" + ParamStringAsWritten(e.parameters) + ")";
    match e.retType
    case Some(t) => head + ": " + t.value
    case None => head
  }

  /** The lines of `get_methods`: one per method, in order. */
  function MethodTexts(s: seq<Ast.Spanned<Expr>>): (r: seq<string>)
    requires AllMethods(s)
    ensures |r| == |s|
  {
    if |s| == 0 then [] else MethodTexts(s[..|s| - 1]) + [MethodText(s[|s| - 1].value)]
  }

  /**
   * Line `i` of `get_methods` is the text of method `i`: its name and `()`,
   * whatever its parameters, then `: ret` when it has a return type.
   */
  lemma {:induction false} MethodTextsElementwise(s: seq<Ast.Spanned<Expr>>)
    requires AllMethods(s)
    ensures forall i :: 0 <= i < |s| ==> MethodTexts(s)[i] == MethodText(s[i].value)
    ensures forall i :: 0 <= i < |s| ==>
      MethodTexts(s)[i] == s[i].value.name.value + "()" +
        (if s[i].value.retType.Some? then ": " + s[i].value.retType.value.value else "")
    decreases |s|
  {
    if |s| > 0 {
      MethodTextsElementwise(s[..|s| - 1]);
      forall i | 0 <= i < |s|
        ensures MethodTexts(s)[i] == s[i].value.name.value + "()" +
          (if s[i].value.retType.Some? then ": " + s[i].value.retType.value.value else "")
      {
        ParamStringAsWrittenIsEmpty(s[i].value.parameters);
      }
    }
  }

  /** `get_methods`: a loop pushing one line per method. */
  method GetMethods(methods: seq<Ast.Spanned<Expr>>) returns (v: seq<string>)
    requires AllMethods(methods)
    ensures v == MethodTexts(methods)
  {
    v := [];
    for i := 0 to |methods|
      invariant v == MethodTexts(methods[..i])
    {
      assert methods[..i + 1][..i] == methods[..i];
      v := v + [MethodText(methods[i].value)];
    }
    assert methods[..|methods|] == methods;
  }

  /** The height of a class box with `a` attributes and `m` methods. */
  function ClassHeight(a: nat, m: nat): nat
  {
    StartHeight + AttrHeight * a + SeparatorHeight + MethodHeight * m
  }

  /** The attribute rows of class `id`: row `k` has id `id + 1 + k` and sits at `26 + 26k`. */
  function AttributeCells(id: nat, attributes: seq<string>): (r: seq<Cell>)
    ensures |r| == |attributes|
    ensures forall k :: 0 <= k < |r| ==> r[k] == AttributeCell(id + 1 + k, attributes[k], id, StartHeight + AttrHeight * k)
  {
    var n := |attributes|;
    if n == 0 then []
    else
      var row := AttributeCell(id + n, attributes[n - 1], id, StartHeight + AttrHeight * (n - 1));
      AttributeCells(id, attributes[..n - 1]) + [row]
  }

  /** The method rows of class `id` after `a` attributes and the separator. */
  function MethodCells(id: nat, a: nat, methods: seq<string>): (r: seq<Cell>)
    ensures |r| == |methods|
    ensures forall k :: 0 <= k < |r| ==>
      r[k] == MethodCell(id + a + 2 + k, methods[k], id, StartHeight + AttrHeight * a + SeparatorHeight + MethodHeight * k)
  {
    var n := |methods|;
    if n == 0 then []
    else
      var row := MethodCell(id + a + 1 + n, methods[n - 1], id, StartHeight + AttrHeight * a + SeparatorHeight + MethodHeight * (n - 1));
      MethodCells(id, a, methods[..n - 1]) + [row]
  }

  /** The cells of one class: the title, the attribute rows, the separator bar, the method rows. */
  function ClassCells(id: nat, name: string, attributes: seq<string>, methods: seq<string>, x: nat, y: nat): seq<Cell>
  {
    var a := |attributes|;
    [TitleCell(id, name, RootId, x, y, Width, ClassHeight(a, |methods|))] +
    AttributeCells(id, attributes) +
    [SeparatorCell(id + 1 + a, id, StartHeight + AttrHeight * a)] +
    MethodCells(id, a, methods)
  }

  /** The `&mut` counters threaded through the generator: the next id and the next class's `y`. */
  class Counters {
    var id: nat
    var y: nat

    constructor (id: nat, y: nat)
      ensures this.id == id && this.y == y
    {
      this.id := id;
      this.y := y;
    }
  }

  /**
   * `make_class`: the rows are laid out top to bottom while `m_id` and `y`
   * count up; the title goes in front; the counter's id moves past the
   * class's last row.
   */
  method MakeClass(c: Counters, name: string, attributes: seq<string>, methods: seq<string>, x: nat, yPos: nat)
    returns (cells: seq<Cell>, height: nat)
    modifies c
    ensures cells == ClassCells(old(c.id), name, attributes, methods, x, yPos)
    ensures height == ClassHeight(|attributes|, |methods|)
    ensures c.id == old(c.id) + |attributes| + |methods| + 2 && c.y == old(c.y)
  {
    var id := c.id;
    var rows: seq<Cell> := [];
    var mId := id + 1;
    var y := StartHeight;
    for i := 0 to |attributes|
      invariant rows == AttributeCells(id, attributes[..i])
      invariant mId == id + 1 + i && y == StartHeight + AttrHeight * i
    {
      assert attributes[..i + 1][..i] == attributes[..i];
      rows := rows + [AttributeCell(mId, attributes[i], id, y)];
      mId := mId + 1;
      y := y + AttrHeight;
    }
    assert attributes[..|attributes|] == attributes;
    rows := rows + [SeparatorCell(mId, id, y)];
    mId := mId + 1;
    y := y + SeparatorHeight;
    ghost var head := rows;
    for i := 0 to |methods|
      invariant rows == head + MethodCells(id, |attributes|, methods[..i])
      invariant mId == id + |attributes| + 2 + i
      invariant y == StartHeight + AttrHeight * |attributes| + SeparatorHeight + MethodHeight * i
    {
      assert methods[..i + 1][..i] == methods[..i];
      rows := rows + [MethodCell(mId, methods[i], id, y)];
      mId := mId + 1;
      y := y + MethodHeight;
    }
    assert methods[..|methods|] == methods;
    y := y + StartHeight - MethodHeight;
    cells := [TitleCell(id, name, RootId, x, yPos, Width, y)] + rows;
    height := y;
    c.id := mId;
  }

  /**
   * A class takes `a + m + 2` consecutive ids starting with the title's; the
   * title hangs from the root and carries the class height; every row hangs
   * from the title.
   */
  lemma ClassCellsLayout(id: nat, name: string, attributes: seq<string>, methods: seq<string>, x: nat, y: nat)
    ensures var cells := ClassCells(id, name, attributes, methods, x, y);
      |cells| == |attributes| + |methods| + 2 &&
      (forall k :: 0 <= k < |cells| ==> cells[k].id == id + k) &&
      cells[0] == TitleCell(id, name, RootId, x, y, Width, ClassHeight(|attributes|, |methods|)) &&
      (forall k :: 1 <= k < |cells| ==> !cells[k].TitleCell? && cells[k].parent == id)
  {
    var a := |attributes|;
    var cells := ClassCells(id, name, attributes, methods, x, y);
    var attrs := AttributeCells(id, attributes);
    var meths := MethodCells(id, a, methods);
    assert cells == [cells[0]] + attrs + [SeparatorCell(id + 1 + a, id, StartHeight + AttrHeight * a)] + meths;
    forall k | 1 <= k < |cells|
      ensures cells[k].id == id + k && !cells[k].TitleCell? && cells[k].parent == id
    {
      if k <= a {
        assert cells[k] == attrs[k - 1];
      } else if k == a + 1 {
        assert cells[k] == SeparatorCell(id + 1 + a, id, StartHeight + AttrHeight * a);
      } else {
        assert cells[k] == meths[k - a - 2];
      }
    }
  }

  /** A tree `class_diag_from_tokens` draws without reaching `todo!` or `unreachable!`. */
  predicate Drawable(e: Expr)
    decreases e, 1
  {
    match e
    case Class(_, attributes, methods) => AllAttributes(attributes) && AllMethods(methods)
    case ExprList(es) => forall i :: 0 <= i < |es| ==> DrawableElement(es[i])
    case _ => false
  }

  predicate DrawableElement(s: Ast.Spanned<Expr>)
    decreases s, 2
  {
    Drawable(s.value)
  }

  /**
   * `class_diag_from_tokens` on counters `(id, y)`: the cells drawn and the
   * counters afterwards. A class is drawn at `x = 15` and the next class
   * goes 100 below its box; a list draws its elements in order.
   */
  function DiagFrom(id: nat, y: nat, e: Expr): (r: (seq<Cell>, nat, nat))
    requires Drawable(e)
    decreases e, 1
  {
    match e
    case Class(name, attributes, methods) =>
      var a := AttributeTexts(attributes);
      var m := MethodTexts(methods);
      (ClassCells(id, name.value, a, m, XPadding, y), id + |a| + |m| + 2, ClassHeight(|a|, |m|) + YPadding)
    case ExprList(es) => DiagList(id, y, es, |es|)
  }

  /** The first `k` elements of a list drawn in order, the counters threaded through. */
  function DiagList(id: nat, y: nat, es: seq<Ast.Spanned<Expr>>, k: nat): (r: (seq<Cell>, nat, nat))
    requires k <= |es|
    requires forall i :: 0 <= i < |es| ==> DrawableElement(es[i])
    decreases es, 0, k
  {
    if k == 0 then ([], id, y)
    else
      var before := DiagList(id, y, es, k - 1);
      var last := DiagElement(before.1, before.2, es[k - 1]);
      (before.0 + last.0, last.1, last.2)
  }

  function DiagElement(id: nat, y: nat, s: Ast.Spanned<Expr>): (r: (seq<Cell>, nat, nat))
    requires DrawableElement(s)
    decreases s, 2
  {
    DiagFrom(id, y, s.value)
  }

  /** `make_class_diag`: the diagram with ids from 2 and the first class at `y = 25`. */
  function MakeClassDiag(e: Expr): seq<Cell>
    requires Drawable(e)
  {
    DiagFrom(2, 25, e).0
  }

  /** `class_diag_from_tokens` as the source runs it, over the shared counters. */
  method ClassDiagFromTokens(c: Counters, e: Expr) returns (cells: seq<Cell>)
    requires Drawable(e)
    modifies c
    ensures (cells, c.id, c.y) == DiagFrom(old(c.id), old(c.y), e)
    decreases e, 1
  {
    match e {
      case Class(name, attributes, methods) =>
        cells := ClassDiagClass(c, name.value, attributes, methods);
      case ExprList(es) =>
        cells := ClassDiagList(c, es);
    }
  }

  /** The `Class` branch: the rows' texts, the class's cells, and `y` moved below the box. */
  method ClassDiagClass(c: Counters, name: string, attributes: seq<Ast.Spanned<Expr>>, methods: seq<Ast.Spanned<Expr>>)
    returns (cells: seq<Cell>)
    requires AllAttributes(attributes) && AllMethods(methods)
    modifies c
    ensures cells == ClassCells(old(c.id), name, AttributeTexts(attributes), MethodTexts(methods), XPadding, old(c.y))
    ensures c.id == old(c.id) + |attributes| + |methods| + 2
    ensures c.y == ClassHeight(|attributes|, |methods|) + YPadding
  {
    var a := GetAttributes(attributes);
    var m := GetMethods(methods);
    var height;
    cells, height := MakeClass(c, name, a, m, XPadding, c.y);
    c.y := height + YPadding;
  }

  /** The `ExprList` branch: a `for` loop appending each element's drawing. */
  method ClassDiagList(c: Counters, es: seq<Ast.Spanned<Expr>>) returns (cells: seq<Cell>)
    requires forall i :: 0 <= i < |es| ==> DrawableElement(es[i])
    modifies c
    ensures (cells, c.id, c.y) == DiagList(old(c.id), old(c.y), es, |es|)
    decreases es, 0, 0
  {
    cells := [];
    for i := 0 to |es|
      invariant (cells, c.id, c.y) == DiagList(old(c.id), old(c.y), es, i)
    {
      var part := ClassDiagElement(c, es[i]);
      cells := cells + part;
    }
  }

  method ClassDiagElement(c: Counters, s: Ast.Spanned<Expr>) returns (cells: seq<Cell>)
    requires DrawableElement(s)
    modifies c
    ensures (cells, c.id, c.y) == DiagElement(old(c.id), old(c.y), s)
    decreases s, 2
  {
    cells := ClassDiagFromTokens(c, s.value);
  }

  /** `make_class_diag` over fresh counters. */
  method MakeClassDiagInto(e: Expr) returns (cells: seq<Cell>)
    requires Drawable(e)
    ensures cells == MakeClassDiag(e)
  {
    var c := new Counters(2, 25);
    cells := ClassDiagFromTokens(c, e);
  }

  /**
   * A drawing takes consecutive ids: its cells are numbered `id, id + 1, …`
   * in output order and the counter ends just past the last one.
   */
  lemma {:induction false} DiagIdsConsecutive(id: nat, y: nat, e: Expr)
    requires Drawable(e)
    ensures var (cells, next, _) := DiagFrom(id, y, e);
      next == id + |cells| && forall k :: 0 <= k < |cells| ==> cells[k].id == id + k
    decreases e, 1
  {
    match e
    case Class(name, attributes, methods) =>
      ClassCellsLayout(id, name.value, AttributeTexts(attributes), MethodTexts(methods), XPadding, y);
    case ExprList(es) =>
      DiagListIdsConsecutive(id, y, es, |es|);
  }

  lemma {:induction false} DiagListIdsConsecutive(id: nat, y: nat, es: seq<Ast.Spanned<Expr>>, k: nat)
    requires k <= |es|
    requires forall i :: 0 <= i < |es| ==> DrawableElement(es[i])
    ensures var (cells, next, _) := DiagList(id, y, es, k);
      next == id + |cells| && forall j :: 0 <= j < |cells| ==> cells[j].id == id + j
    decreases es, 0, k
  {
    if k > 0 {
      DiagListIdsConsecutive(id, y, es, k - 1);
      var before := DiagList(id, y, es, k - 1);
      DiagElementIdsConsecutive(before.1, before.2, es[k - 1]);
    }
  }

  lemma {:induction false} DiagElementIdsConsecutive(id: nat, y: nat, s: Ast.Spanned<Expr>)
    requires DrawableElement(s)
    ensures var (cells, next, _) := DiagElement(id, y, s);
      next == id + |cells| && forall k :: 0 <= k < |cells| ==> cells[k].id == id + k
    decreases s, 2
  {
    DiagIdsConsecutive(id, y, s.value);
  }

  /**
   * After a class the next `y` is that class's height plus 100, whatever `y`
   * was before; the class's own title sits at the old `y`.
   */
  lemma ClassMovesY(id: nat, y: nat, e: Expr)
    requires e.Class? && Drawable(e)
    ensures var (cells, _, y') := DiagFrom(id, y, e);
      y' == cells[0].height + YPadding &&
      cells[0].y == y && cells[0].x == XPadding &&
      cells[0].height == ClassHeight(|e.attributes|, |e.methods|)
  {
  }
}
