/**
 * The draw.io style strings (dialang/src/style.rs): a record of optional
 * settings, filled in by a builder and rendered as `key=value;` entries in
 * a fixed order, the base style first as `name;`.
 *
 * Numbers are unbounded (`u32` fields are `nat`, `i32` fields `int`).
 * The `f32` coordinates of `points` are kept as the texts they display as,
 * and the builder-only `f64` fields as `real`, since `build` drops them.
 */
module Styles {
  import opened Wrappers

  datatype BaseStyle = Line | Text | SwimLane
  datatype Alignment = Left | Center
  datatype VerticalAlignment = Top | Middle
  datatype RelativePosition = Right | Bottom
  datatype PortConstraint = EastWest
  datatype Overflow = Hidden
  datatype ChildLayout = Stack
  datatype WhiteSpace = Wrap
  datatype Shape = UmlActor

  /** A point of a line, as the texts of its two coordinates. */
  datatype Point = Point(x: string, y: string)

  datatype Style = Style(
    baseStyle: Option<BaseStyle>,
    strokeColor: Option<()>,
    strokeWidth: Option<nat>,
    fillColor: Option<()>,
    alignment: Option<Alignment>,
    verticalAlignment: Option<VerticalAlignment>,
    spacingTop: Option<int>,
    spacingLeft: Option<int>,
    spacingRight: Option<int>,
    rotatable: Option<bool>,
    labelPosition: Option<RelativePosition>,
    points: seq<Point>,
    portConstraint: Option<PortConstraint>,
    overflow: Option<Overflow>,
    fontStyle: Option<nat>,
    childLayout: Option<ChildLayout>,
    horizontal: Option<bool>,
    startSize: Option<nat>,
    horizontalStack: Option<bool>,
    resizeParent: Option<bool>,
    resizeParentMax: Option<nat>,
    resizeLast: Option<bool>,
    collapsible: Option<bool>,
    marginBottom: Option<nat>)

  /** The builder: every field of `Style` and ten more that `build` drops. */
  datatype StyleBuilder = StyleBuilder(
    baseStyle: Option<BaseStyle>,
    strokeColor: Option<()>,
    strokeWidth: Option<nat>,
    fillColor: Option<()>,
    alignment: Option<Alignment>,
    verticalAlignment: Option<VerticalAlignment>,
    spacingTop: Option<int>,
    spacingLeft: Option<int>,
    spacingRight: Option<int>,
    rotatable: Option<bool>,
    labelPosition: Option<RelativePosition>,
    points: seq<Point>,
    portConstraint: Option<PortConstraint>,
    overflow: Option<Overflow>,
    fontStyle: Option<nat>,
    childLayout: Option<ChildLayout>,
    horizontal: Option<bool>,
    startSize: Option<nat>,
    horizontalStack: Option<bool>,
    resizeParent: Option<bool>,
    resizeParentMax: Option<nat>,
    resizeLast: Option<bool>,
    collapsible: Option<bool>,
    marginBottom: Option<nat>,
    shape: Option<Shape>,
    verticalLabelPosition: Option<RelativePosition>,
    html: Option<bool>,
    outlineConnect: Option<bool>,
    rounded: Option<bool>,
    whiteSpace: Option<WhiteSpace>,
    entryX: Option<real>,
    entryY: Option<real>,
    entryDx: Option<real>,
    entryDy: Option<real>)

  // ---------------------------------------------------------------------
  // Displays
  // ---------------------------------------------------------------------

  function BoolToNum(b: bool): (r: nat)
    ensures r <= 1 && (r == 1 <==> b)
  {
    if b then 1 else 0
  }

  function DigitChar(d: nat): char
    requires d < 10
  {
    "0123456789"[d]
  }

  /** The number a string of decimal digits denotes, most significant first. */
  function DigitsValue(s: string): nat
    requires forall i :: 0 <= i < |s| ==> '0' <= s[i] <= '9'
  {
    if |s| == 0 then 0 else 10 * DigitsValue(s[..|s| - 1]) + (s[|s| - 1] as int - '0' as int)
  }

  /** The decimal digits of `n`, most significant first, without leading zeros. */
  function NatText(n: nat): (r: string)
    ensures |r| > 0
    ensures forall i :: 0 <= i < |r| ==> '0' <= r[i] <= '9'
    ensures DigitsValue(r) == n
    ensures r[0] == '0' ==> r == "0"
    decreases n
  {
    if n < 10 then [DigitChar(n)] else NatText(n / 10) + [DigitChar(n % 10)]
  }

  /** The decimal text of `i`, with a leading `-` when negative. */
  function IntText(i: int): (r: string)
    ensures |r| > 0
    ensures i < 0 <==> r[0] == '-'
    ensures i < 0 ==> r == "-" + NatText(-i)
    ensures i >= 0 ==> r == NatText(i)
  {
    if i < 0 then "-" + NatText(-i) else NatText(i)
  }

  function BaseStyleName(b: BaseStyle): string
  {
    match b
    case Line => "line"
    case Text => "text"
    case SwimLane => "swimlane"
  }

  function AlignmentName(a: Alignment): string
  {
    match a
    case Left => "left"
    case Center => "center"
  }

  function VerticalAlignmentName(a: VerticalAlignment): string
  {
    match a
    case Top => "top"
    case Middle => "middle"
  }

  function RelativePositionName(p: RelativePosition): string
  {
    match p
    case Right => "right"
    case Bottom => "bottom"
  }

  function PortConstraintName(p: PortConstraint): string
  {
    "eastwest"
  }

  function OverflowName(o: Overflow): string
  {
    "hidden"
  }

  function ChildLayoutName(c: ChildLayout): string
  {
    "stackLayout"
  }

  /** The names of a kind of value are pairwise distinct. */
  lemma NamesAreDistinct(b1: BaseStyle, b2: BaseStyle, a1: Alignment, a2: Alignment,
                         v1: VerticalAlignment, v2: VerticalAlignment, p1: RelativePosition, p2: RelativePosition)
    ensures BaseStyleName(b1) == BaseStyleName(b2) ==> b1 == b2
    ensures AlignmentName(a1) == AlignmentName(a2) ==> a1 == a2
    ensures VerticalAlignmentName(v1) == VerticalAlignmentName(v2) ==> v1 == v2
    ensures RelativePositionName(p1) == RelativePositionName(p2) ==> p1 == p2
  {
    if BaseStyleName(b1) == BaseStyleName(b2) {
      assert BaseStyleName(b1)[0] == BaseStyleName(b2)[0];
    }
    if AlignmentName(a1) == AlignmentName(a2) {
      assert AlignmentName(a1)[0] == AlignmentName(a2)[0];
    }
    if VerticalAlignmentName(v1) == VerticalAlignmentName(v2) {
      assert VerticalAlignmentName(v1)[0] == VerticalAlignmentName(v2)[0];
    }
    if RelativePositionName(p1) == RelativePositionName(p2) {
      assert RelativePositionName(p1)[0] == RelativePositionName(p2)[0];
    }
  }

  // ---------------------------------------------------------------------
  // What each base style allows
  // ---------------------------------------------------------------------

  predicate StrokeColorAble(b: BaseStyle) { b == Text }
  predicate FillColorAble(b: BaseStyle) { b == Line || b == Text }
  predicate StrokeWidthAble(b: BaseStyle) { b == Line }
  predicate PointsAble(b: BaseStyle) { b == Line || b == Text }

  /** A style `to_string` renders without reaching a `todo!`: no colour is set where the base style renders one. */
  predicate Renderable(s: Style)
  {
    s.baseStyle.Some? ==>
      (StrokeColorAble(s.baseStyle.value) ==> s.strokeColor.None?) &&
      (FillColorAble(s.baseStyle.value) ==> s.fillColor.None?)
  }

  // ---------------------------------------------------------------------
  // Rendering
  // ---------------------------------------------------------------------

  /** One rendered piece: the base style's `name;`, or a `key=value;`. */
  datatype Entry = Base(name: string) | Setting(key: string, value: string)

  function EntryText(e: Entry): string
  {
    match e
    case Base(name) => name + ";"
    case Setting(key, value) => key + "=" + value + ";"
  }

  /** The texts of the entries, in order. */
  function Texts(es: seq<Entry>): (r: seq<string>)
    ensures |r| == |es|
  {
    if |es| == 0 then [] else [EntryText(es[0])] + Texts(es[1..])
  }

  /** The texts one after the other. */
  function Flatten(ss: seq<string>): string
  {
    if |ss| == 0 then "" else ss[0] + Flatten(ss[1..])
  }

  /** The string of a list of entries. */
  function Concat(es: seq<Entry>): string
  {
    Flatten(Texts(es))
  }

  lemma {:induction false} TextsAppend(a: seq<Entry>, b: seq<Entry>)
    ensures Texts(a + b) == Texts(a) + Texts(b)
    decreases |a|
  {
    if |a| > 0 {
      TextsAppend(a[1..], b);
      assert (a + b)[1..] == a[1..] + b;
    } else {
      assert a + b == b;
    }
  }

  lemma {:induction false} FlattenAppend(a: seq<string>, b: seq<string>)
    ensures Flatten(a + b) == Flatten(a) + Flatten(b)
    decreases |a|
  {
    if |a| > 0 {
      FlattenAppend(a[1..], b);
      assert (a + b)[1..] == a[1..] + b;
    } else {
      assert a + b == b;
    }
  }

  lemma ConcatSingle(e: Entry)
    ensures Concat([e]) == EntryText(e)
  {
    assert [e][1..] == [];
    assert Texts([e]) == [EntryText(e)];
    var t := [EntryText(e)];
    assert t[1..] == [];
    assert Flatten(t) == t[0] + Flatten(t[1..]);
    assert Flatten(t) == EntryText(e) + "";
  }

  /** The string of `a + b` is the string of `a` followed by that of `b`. */
  lemma ConcatAppend(a: seq<Entry>, b: seq<Entry>)
    ensures Concat(a + b) == Concat(a) + Concat(b)
  {
    TextsAppend(a, b);
    FlattenAppend(Texts(a), Texts(b));
  }

  lemma ConcatCons(e: Entry, es: seq<Entry>)
    ensures Concat([e] + es) == EntryText(e) + Concat(es)
  {
    ConcatAppend([e], es);
    ConcatSingle(e);
  }

  /** A `key=value;` entry when the field is set. */
  function Opt(present: bool, key: string, value: string): seq<Entry>
  {
    if present then [Setting(key, value)] else []
  }

  function NatEntry(key: string, v: Option<nat>): seq<Entry>
  {
    Opt(v.Some?, key, if v.Some? then NatText(v.value) else "")
  }

  function IntEntry(key: string, v: Option<int>): seq<Entry>
  {
    Opt(v.Some?, key, if v.Some? then IntText(v.value) else "")
  }

  /** A boolean field is rendered through `bool_to_num`, as `1` or `0`. */
  function BoolEntry(key: string, v: Option<bool>): seq<Entry>
  {
    Opt(v.Some?, key, if v.Some? then NatText(BoolToNum(v.value)) else "")
  }

  /** The `[x,y]` text of one point. */
  function PointText(p: Point): string
  {
    "[" + p.x + "," + p.y + "]"
  }

  /** The points separated by commas. */
  function JoinPoints(ps: seq<Point>): string
  {
    if |ps| == 0 then "" else if |ps| == 1 then PointText(ps[0]) else JoinPoints(ps[..|ps| - 1]) + "," + PointText(ps[|ps| - 1])
  }

  /** The value rendered for `points`: the points in brackets, separated by commas. */
  function PointsText(ps: seq<Point>): string
  {
    "[" + JoinPoints(ps) + "]"
  }

  /** The base style, then the font style. */
  function HeadEntries(s: Style): seq<Entry>
  {
    (if s.baseStyle.Some? then [Base(BaseStyleName(s.baseStyle.value))] else []) +
    NatEntry("fontStyle", s.fontStyle)
  }

  /** The colours and the stroke width, as the base style allows them. */
  function ColourEntries(s: Style): seq<Entry>
  {
    if s.baseStyle.None? then []
    else
      var b := s.baseStyle.value;
      Opt(StrokeColorAble(b), "strokeColor", "none") +
      (if StrokeWidthAble(b) then NatEntry("strokeWidth", s.strokeWidth) else []) +
      Opt(FillColorAble(b), "fillColor", "none")
  }

  /** The alignments and the first two spacings. */
  function AlignEntries(s: Style): seq<Entry>
  {
    Opt(s.alignment.Some?, "align", if s.alignment.Some? then AlignmentName(s.alignment.value) else "") +
    Opt(s.verticalAlignment.Some?, "verticalAlign", if s.verticalAlignment.Some? then VerticalAlignmentName(s.verticalAlignment.value) else "") +
    IntEntry("spacingTop", s.spacingTop) +
    IntEntry("spacingLeft", s.spacingLeft)
  }

  /** The right spacing, overflow, rotation and label position. */
  function LabelEntries(s: Style): seq<Entry>
  {
    IntEntry("spacingRight", s.spacingRight) +
    Opt(s.overflow.Some?, "overflow", if s.overflow.Some? then OverflowName(s.overflow.value) else "") +
    BoolEntry("rotatable", s.rotatable) +
    Opt(s.labelPosition.Some?, "labelPosition", if s.labelPosition.Some? then RelativePositionName(s.labelPosition.value) else "")
  }

  /** The points, when the base style draws them. */
  function PointEntries(s: Style): seq<Entry>
  {
    Opt(s.baseStyle.Some? && PointsAble(s.baseStyle.value), "points", PointsText(s.points))
  }

  /** The port constraint, the child layout, the orientation and the start size. */
  function ContainerEntries(s: Style): seq<Entry>
  {
    Opt(s.portConstraint.Some?, "portConstraint", if s.portConstraint.Some? then PortConstraintName(s.portConstraint.value) else "") +
    Opt(s.childLayout.Some?, "childLayout", if s.childLayout.Some? then ChildLayoutName(s.childLayout.value) else "") +
    BoolEntry("horizontal", s.horizontal) +
    NatEntry("startSize", s.startSize)
  }

  /** The stacking and parent resizing settings. */
  function ResizeEntries(s: Style): seq<Entry>
  {
    BoolEntry("horizontalStack", s.horizontalStack) +
    BoolEntry("resizeParent", s.resizeParent) +
    NatEntry("resizeParentMax", s.resizeParentMax)
  }

  /** The last settings: resizing the last child, collapsing, the bottom margin. */
  function ClosingEntries(s: Style): seq<Entry>
  {
    BoolEntry("resizeLast", s.resizeLast) +
    BoolEntry("collapsible", s.collapsible) +
    NatEntry("marginBottom", s.marginBottom)
  }

  /** The entries of a style's string, in the order `to_string` writes them. */
  function Entries(s: Style): seq<Entry>
  {
    HeadEntries(s) + ColourEntries(s) + AlignEntries(s) + LabelEntries(s) +
    PointEntries(s) + ContainerEntries(s) + ResizeEntries(s) + ClosingEntries(s)
  }

  /** `Style::to_string`, defined where it does not reach a `todo!`: the sections' strings in order. */
  function Render(s: Style): string
    requires Renderable(s)
  {
    Concat(HeadEntries(s)) + Concat(ColourEntries(s)) + Concat(AlignEntries(s)) + Concat(LabelEntries(s)) +
    Concat(PointEntries(s)) + Concat(ContainerEntries(s)) + Concat(ResizeEntries(s)) + Concat(ClosingEntries(s))
  }

  /**
   * One `if let Some(..)` step of `to_string`: when the field is set, its
   * `key=value;` is appended to the string under construction, and the
   * entry is recorded.
   */
  method EmitOpt(out: string, ghost es: seq<Entry>, present: bool, key: string, value: string)
    returns (out': string, ghost es': seq<Entry>)
    requires out == Concat(es)
    ensures es' == es + Opt(present, key, value) && out' == Concat(es')
  {
    out' := out;
    es' := es;
    if present {
      out' := out + EntryText(Setting(key, value));
      es' := es + [Setting(key, value)];
      ConcatAppend(es, [Setting(key, value)]);
      ConcatSingle(Setting(key, value));
    } else {
      assert es' == es + [];
    }
  }

  /**
   * The points fold of `to_string`: `[` and then `[x,y],` per point; the
   * trailing comma is popped when there was a point; then `]`.
   */
  method PointsString(points: seq<Point>) returns (p: string)
    ensures p == PointsText(points)
  {
    p := "[";
    for i := 0 to |points|
      invariant |p| > 0 && p[0] == '['
      invariant i == 0 <==> |p| == 1
      invariant i > 0 ==> p == "[" + JoinPoints(points[..i]) + ","
    {
      if i > 0 {
        assert points[..i + 1][..i] == points[..i];
      }
      p := p + PointText(points[i]) + ",";
    }
    assert points[..|points|] == points;
    if |p| > 1 {
      p := p[..|p| - 1];
    }
    p := p + "]";
  }

  method HeadString(s: Style) returns (out: string)
    ensures out == Concat(HeadEntries(s))
  {
    out := "";
    ghost var es: seq<Entry> := [];
    if s.baseStyle.Some? {
      out := EntryText(Base(BaseStyleName(s.baseStyle.value)));
      es := [Base(BaseStyleName(s.baseStyle.value))];
      ConcatSingle(es[0]);
    }
    out, es := EmitOpt(out, es, s.fontStyle.Some?, "fontStyle", if s.fontStyle.Some? then NatText(s.fontStyle.value) else "");
  }

  method ColourString(s: Style) returns (out: string)
    requires Renderable(s)
    ensures out == Concat(ColourEntries(s))
  {
    out := "";
    ghost var es: seq<Entry> := [];
    if s.baseStyle.Some? {
      var b := s.baseStyle.value;
      out, es := EmitOpt(out, es, StrokeColorAble(b), "strokeColor", "none");
      if StrokeWidthAble(b) {
        out, es := EmitOpt(out, es, s.strokeWidth.Some?, "strokeWidth", if s.strokeWidth.Some? then NatText(s.strokeWidth.value) else "");
      } else {
        assert es + [] == es;
      }
      out, es := EmitOpt(out, es, FillColorAble(b), "fillColor", "none");
      assert es == [] + Opt(StrokeColorAble(b), "strokeColor", "none") +
        (if StrokeWidthAble(b) then NatEntry("strokeWidth", s.strokeWidth) else []) +
        Opt(FillColorAble(b), "fillColor", "none");
    }
  }

  method AlignString(s: Style) returns (out: string)
    ensures out == Concat(AlignEntries(s))
  {
    out := "";
    ghost var es: seq<Entry> := [];
    out, es := EmitOpt(out, es, s.alignment.Some?, "align", if s.alignment.Some? then AlignmentName(s.alignment.value) else "");
    out, es := EmitOpt(out, es, s.verticalAlignment.Some?, "verticalAlign", if s.verticalAlignment.Some? then VerticalAlignmentName(s.verticalAlignment.value) else "");
    out, es := EmitOpt(out, es, s.spacingTop.Some?, "spacingTop", if s.spacingTop.Some? then IntText(s.spacingTop.value) else "");
    out, es := EmitOpt(out, es, s.spacingLeft.Some?, "spacingLeft", if s.spacingLeft.Some? then IntText(s.spacingLeft.value) else "");
    assert [] + Opt(s.alignment.Some?, "align", if s.alignment.Some? then AlignmentName(s.alignment.value) else "") ==
      Opt(s.alignment.Some?, "align", if s.alignment.Some? then AlignmentName(s.alignment.value) else "");
    assert es == AlignEntries(s);
  }

  method LabelString(s: Style) returns (out: string)
    ensures out == Concat(LabelEntries(s))
  {
    out := "";
    ghost var es: seq<Entry> := [];
    out, es := EmitOpt(out, es, s.spacingRight.Some?, "spacingRight", if s.spacingRight.Some? then IntText(s.spacingRight.value) else "");
    out, es := EmitOpt(out, es, s.overflow.Some?, "overflow", if s.overflow.Some? then OverflowName(s.overflow.value) else "");
    out, es := EmitOpt(out, es, s.rotatable.Some?, "rotatable", if s.rotatable.Some? then NatText(BoolToNum(s.rotatable.value)) else "");
    out, es := EmitOpt(out, es, s.labelPosition.Some?, "labelPosition", if s.labelPosition.Some? then RelativePositionName(s.labelPosition.value) else "");
    assert [] + IntEntry("spacingRight", s.spacingRight) == IntEntry("spacingRight", s.spacingRight);
    assert es == LabelEntries(s);
  }

  method ContainerString(s: Style) returns (out: string)
    ensures out == Concat(ContainerEntries(s))
  {
    out := "";
    ghost var es: seq<Entry> := [];
    out, es := EmitOpt(out, es, s.portConstraint.Some?, "portConstraint", if s.portConstraint.Some? then PortConstraintName(s.portConstraint.value) else "");
    out, es := EmitOpt(out, es, s.childLayout.Some?, "childLayout", if s.childLayout.Some? then ChildLayoutName(s.childLayout.value) else "");
    out, es := EmitOpt(out, es, s.horizontal.Some?, "horizontal", if s.horizontal.Some? then NatText(BoolToNum(s.horizontal.value)) else "");
    out, es := EmitOpt(out, es, s.startSize.Some?, "startSize", if s.startSize.Some? then NatText(s.startSize.value) else "");
    assert [] + Opt(s.portConstraint.Some?, "portConstraint", if s.portConstraint.Some? then PortConstraintName(s.portConstraint.value) else "") ==
      Opt(s.portConstraint.Some?, "portConstraint", if s.portConstraint.Some? then PortConstraintName(s.portConstraint.value) else "");
    assert es == ContainerEntries(s);
  }

  method ResizeString(s: Style) returns (out: string)
    ensures out == Concat(ResizeEntries(s))
  {
    out := "";
    ghost var es: seq<Entry> := [];
    out, es := EmitOpt(out, es, s.horizontalStack.Some?, "horizontalStack", if s.horizontalStack.Some? then NatText(BoolToNum(s.horizontalStack.value)) else "");
    out, es := EmitOpt(out, es, s.resizeParent.Some?, "resizeParent", if s.resizeParent.Some? then NatText(BoolToNum(s.resizeParent.value)) else "");
    out, es := EmitOpt(out, es, s.resizeParentMax.Some?, "resizeParentMax", if s.resizeParentMax.Some? then NatText(s.resizeParentMax.value) else "");
    assert [] + BoolEntry("horizontalStack", s.horizontalStack) == BoolEntry("horizontalStack", s.horizontalStack);
    assert es == ResizeEntries(s);
  }

  method ClosingString(s: Style) returns (out: string)
    ensures out == Concat(ClosingEntries(s))
  {
    out := "";
    ghost var es: seq<Entry> := [];
    out, es := EmitOpt(out, es, s.resizeLast.Some?, "resizeLast", if s.resizeLast.Some? then NatText(BoolToNum(s.resizeLast.value)) else "");
    out, es := EmitOpt(out, es, s.collapsible.Some?, "collapsible", if s.collapsible.Some? then NatText(BoolToNum(s.collapsible.value)) else "");
    out, es := EmitOpt(out, es, s.marginBottom.Some?, "marginBottom", if s.marginBottom.Some? then NatText(s.marginBottom.value) else "");
    assert [] + BoolEntry("resizeLast", s.resizeLast) == BoolEntry("resizeLast", s.resizeLast);
    assert es == ClosingEntries(s);
  }

  /** `Style::to_string` as the source runs it: the sections appended to one string in order. */
  method ToString(s: Style) returns (out: string)
    requires Renderable(s)
    ensures out == Render(s)
  {
    out := HeadString(s);
    var colours := ColourString(s);
    out := out + colours;
    var align := AlignString(s);
    out := out + align;
    var labels := LabelString(s);
    out := out + labels;
    var points := "";
    if s.baseStyle.Some? && PointsAble(s.baseStyle.value) {
      var p := PointsString(s.points);
      points := EntryText(Setting("points", p));
      ConcatSingle(Setting("points", p));
    } else {
      assert PointEntries(s) == [];
    }
    out := out + points;
    var container := ContainerString(s);
    out := out + container;
    var resize := ResizeString(s);
    out := out + resize;
    var closing := ClosingString(s);
    out := out + closing;
  }

  // ---------------------------------------------------------------------
  // The builder
  // ---------------------------------------------------------------------

  /** The fields of a builder, to state what a setter leaves alone. */
  datatype Field =
    BaseStyleField
    | StrokeColorField
    | StrokeWidthField
    | FillColorField
    | AlignmentField
    | VerticalAlignmentField
    | SpacingTopField
    | SpacingLeftField
    | SpacingRightField
    | RotatableField
    | LabelPositionField
    | PointsField
    | PortConstraintField
    | OverflowField
    | FontStyleField
    | ChildLayoutField
    | HorizontalField
    | StartSizeField
    | HorizontalStackField
    | ResizeParentField
    | ResizeParentMaxField
    | ResizeLastField
    | CollapsibleField
    | MarginBottomField
    | ShapeField
    | VerticalLabelPositionField
    | HtmlField
    | OutlineConnectField
    | RoundedField
    | WhiteSpaceField
    | EntryXField
    | EntryYField
    | EntryDxField
    | EntryDyField

  /** `a` and `b` hold the same value in field `f`. */
  predicate Agree(a: StyleBuilder, b: StyleBuilder, f: Field)
  {
    (f.BaseStyleField? ==> a.baseStyle == b.baseStyle) &&
    (f.StrokeColorField? ==> a.strokeColor == b.strokeColor) &&
    (f.StrokeWidthField? ==> a.strokeWidth == b.strokeWidth) &&
    (f.FillColorField? ==> a.fillColor == b.fillColor) &&
    (f.AlignmentField? ==> a.alignment == b.alignment) &&
    (f.VerticalAlignmentField? ==> a.verticalAlignment == b.verticalAlignment) &&
    (f.SpacingTopField? ==> a.spacingTop == b.spacingTop) &&
    (f.SpacingLeftField? ==> a.spacingLeft == b.spacingLeft) &&
    (f.SpacingRightField? ==> a.spacingRight == b.spacingRight) &&
    (f.RotatableField? ==> a.rotatable == b.rotatable) &&
    (f.LabelPositionField? ==> a.labelPosition == b.labelPosition) &&
    (f.PointsField? ==> a.points == b.points) &&
    (f.PortConstraintField? ==> a.portConstraint == b.portConstraint) &&
    (f.OverflowField? ==> a.overflow == b.overflow) &&
    (f.FontStyleField? ==> a.fontStyle == b.fontStyle) &&
    (f.ChildLayoutField? ==> a.childLayout == b.childLayout) &&
    (f.HorizontalField? ==> a.horizontal == b.horizontal) &&
    (f.StartSizeField? ==> a.startSize == b.startSize) &&
    (f.HorizontalStackField? ==> a.horizontalStack == b.horizontalStack) &&
    (f.ResizeParentField? ==> a.resizeParent == b.resizeParent) &&
    (f.ResizeParentMaxField? ==> a.resizeParentMax == b.resizeParentMax) &&
    (f.ResizeLastField? ==> a.resizeLast == b.resizeLast) &&
    (f.CollapsibleField? ==> a.collapsible == b.collapsible) &&
    (f.MarginBottomField? ==> a.marginBottom == b.marginBottom) &&
    (f.ShapeField? ==> a.shape == b.shape) &&
    (f.VerticalLabelPositionField? ==> a.verticalLabelPosition == b.verticalLabelPosition) &&
    (f.HtmlField? ==> a.html == b.html) &&
    (f.OutlineConnectField? ==> a.outlineConnect == b.outlineConnect) &&
    (f.RoundedField? ==> a.rounded == b.rounded) &&
    (f.WhiteSpaceField? ==> a.whiteSpace == b.whiteSpace) &&
    (f.EntryXField? ==> a.entryX == b.entryX) &&
    (f.EntryYField? ==> a.entryY == b.entryY) &&
    (f.EntryDxField? ==> a.entryDx == b.entryDx) &&
    (f.EntryDyField? ==> a.entryDy == b.entryDy)
  }

  /** The fields `build` carries over into the style. */
  predicate Shared(f: Field)
  {
    !(f.ShapeField? || f.VerticalLabelPositionField? || f.HtmlField? || f.OutlineConnectField? ||
      f.RoundedField? || f.WhiteSpaceField? || f.EntryXField? || f.EntryYField? || f.EntryDxField? || f.EntryDyField?)
  }

  /** `StyleBuilder::new`: nothing set, no points. */
  function New(): StyleBuilder
  {
    StyleBuilder(None, None, None, None, None, None, None, None, None, None, None, [], None, None, None, None, None, None, None, None, None, None, None, None, None, None, None, None, None, None, None, None, None, None)
  }

  /** `with_base_style`: sets its own field and no other. */
  function WithBaseStyle(b: StyleBuilder, baseStyle: BaseStyle): (r: StyleBuilder)
    ensures r.baseStyle == Some(baseStyle)
    ensures forall f :: f != BaseStyleField ==> Agree(b, r, f)
  {
    b.(baseStyle := Some(baseStyle))
  }

  /** `with_stroke_color`: sets its own field and no other. */
  function WithStrokeColor(b: StyleBuilder, strokeColor: ()): (r: StyleBuilder)
    ensures r.strokeColor == Some(strokeColor)
    ensures forall f :: f != StrokeColorField ==> Agree(b, r, f)
  {
    b.(strokeColor := Some(strokeColor))
  }

  /** `with_stroke_width`: sets its own field and no other. */
  function WithStrokeWidth(b: StyleBuilder, strokeWidth: nat): (r: StyleBuilder)
    ensures r.strokeWidth == Some(strokeWidth)
    ensures forall f :: f != StrokeWidthField ==> Agree(b, r, f)
  {
    b.(strokeWidth := Some(strokeWidth))
  }

  /** `with_fill_color`: sets its own field and no other. */
  function WithFillColor(b: StyleBuilder, fillColor: ()): (r: StyleBuilder)
    ensures r.fillColor == Some(fillColor)
    ensures forall f :: f != FillColorField ==> Agree(b, r, f)
  {
    b.(fillColor := Some(fillColor))
  }

  /** `with_alignment`: sets its own field and no other. */
  function WithAlignment(b: StyleBuilder, alignment: Alignment): (r: StyleBuilder)
    ensures r.alignment == Some(alignment)
    ensures forall f :: f != AlignmentField ==> Agree(b, r, f)
  {
    b.(alignment := Some(alignment))
  }

  /** `with_vertical_alignment`: sets its own field and no other. */
  function WithVerticalAlignment(b: StyleBuilder, verticalAlignment: VerticalAlignment): (r: StyleBuilder)
    ensures r.verticalAlignment == Some(verticalAlignment)
    ensures forall f :: f != VerticalAlignmentField ==> Agree(b, r, f)
  {
    b.(verticalAlignment := Some(verticalAlignment))
  }

  /** `with_spacing_top`: sets its own field and no other. */
  function WithSpacingTop(b: StyleBuilder, spacingTop: int): (r: StyleBuilder)
    ensures r.spacingTop == Some(spacingTop)
    ensures forall f :: f != SpacingTopField ==> Agree(b, r, f)
  {
    b.(spacingTop := Some(spacingTop))
  }

  /** `with_spacing_left`: sets its own field and no other. */
  function WithSpacingLeft(b: StyleBuilder, spacingLeft: int): (r: StyleBuilder)
    ensures r.spacingLeft == Some(spacingLeft)
    ensures forall f :: f != SpacingLeftField ==> Agree(b, r, f)
  {
    b.(spacingLeft := Some(spacingLeft))
  }

  /** `with_spacing_right`: sets its own field and no other. */
  function WithSpacingRight(b: StyleBuilder, spacingRight: int): (r: StyleBuilder)
    ensures r.spacingRight == Some(spacingRight)
    ensures forall f :: f != SpacingRightField ==> Agree(b, r, f)
  {
    b.(spacingRight := Some(spacingRight))
  }

  /** `with_rotatable`: sets its own field and no other. */
  function WithRotatable(b: StyleBuilder, rotatable: bool): (r: StyleBuilder)
    ensures r.rotatable == Some(rotatable)
    ensures forall f :: f != RotatableField ==> Agree(b, r, f)
  {
    b.(rotatable := Some(rotatable))
  }

  /** `with_label_position`: sets its own field and no other. */
  function WithLabelPosition(b: StyleBuilder, labelPosition: RelativePosition): (r: StyleBuilder)
    ensures r.labelPosition == Some(labelPosition)
    ensures forall f :: f != LabelPositionField ==> Agree(b, r, f)
  {
    b.(labelPosition := Some(labelPosition))
  }

  /** `with_points`: sets its own field and no other. */
  function WithPoints(b: StyleBuilder, points: seq<Point>): (r: StyleBuilder)
    ensures r.points == points
    ensures forall f :: f != PointsField ==> Agree(b, r, f)
  {
    b.(points := points)
  }

  /** `with_port_constraint`: sets its own field and no other. */
  function WithPortConstraint(b: StyleBuilder, portConstraint: PortConstraint): (r: StyleBuilder)
    ensures r.portConstraint == Some(portConstraint)
    ensures forall f :: f != PortConstraintField ==> Agree(b, r, f)
  {
    b.(portConstraint := Some(portConstraint))
  }

  /** `with_overflow`: sets its own field and no other. */
  function WithOverflow(b: StyleBuilder, overflow: Overflow): (r: StyleBuilder)
    ensures r.overflow == Some(overflow)
    ensures forall f :: f != OverflowField ==> Agree(b, r, f)
  {
    b.(overflow := Some(overflow))
  }

  /** `with_font_style`: sets its own field and no other. */
  function WithFontStyle(b: StyleBuilder, fontStyle: nat): (r: StyleBuilder)
    ensures r.fontStyle == Some(fontStyle)
    ensures forall f :: f != FontStyleField ==> Agree(b, r, f)
  {
    b.(fontStyle := Some(fontStyle))
  }

  /** `with_child_layout`: sets its own field and no other. */
  function WithChildLayout(b: StyleBuilder, childLayout: ChildLayout): (r: StyleBuilder)
    ensures r.childLayout == Some(childLayout)
    ensures forall f :: f != ChildLayoutField ==> Agree(b, r, f)
  {
    b.(childLayout := Some(childLayout))
  }

  /** `with_horizontal`: sets its own field and no other. */
  function WithHorizontal(b: StyleBuilder, horizontal: bool): (r: StyleBuilder)
    ensures r.horizontal == Some(horizontal)
    ensures forall f :: f != HorizontalField ==> Agree(b, r, f)
  {
    b.(horizontal := Some(horizontal))
  }

  /** `with_start_size`: sets its own field and no other. */
  function WithStartSize(b: StyleBuilder, startSize: nat): (r: StyleBuilder)
    ensures r.startSize == Some(startSize)
    ensures forall f :: f != StartSizeField ==> Agree(b, r, f)
  {
    b.(startSize := Some(startSize))
  }

  /** `with_horizontal_stack`: sets its own field and no other. */
  function WithHorizontalStack(b: StyleBuilder, horizontalStack: bool): (r: StyleBuilder)
    ensures r.horizontalStack == Some(horizontalStack)
    ensures forall f :: f != HorizontalStackField ==> Agree(b, r, f)
  {
    b.(horizontalStack := Some(horizontalStack))
  }

  /** `with_resize_parent`: sets its own field and no other. */
  function WithResizeParent(b: StyleBuilder, resizeParent: bool): (r: StyleBuilder)
    ensures r.resizeParent == Some(resizeParent)
    ensures forall f :: f != ResizeParentField ==> Agree(b, r, f)
  {
    b.(resizeParent := Some(resizeParent))
  }

  /** `with_resize_parent_max`: sets its own field and no other. */
  function WithResizeParentMax(b: StyleBuilder, resizeParentMax: nat): (r: StyleBuilder)
    ensures r.resizeParentMax == Some(resizeParentMax)
    ensures forall f :: f != ResizeParentMaxField ==> Agree(b, r, f)
  {
    b.(resizeParentMax := Some(resizeParentMax))
  }

  /** `with_resize_last`: sets its own field and no other. */
  function WithResizeLast(b: StyleBuilder, resizeLast: bool): (r: StyleBuilder)
    ensures r.resizeLast == Some(resizeLast)
    ensures forall f :: f != ResizeLastField ==> Agree(b, r, f)
  {
    b.(resizeLast := Some(resizeLast))
  }

  /** `with_collapsible`: sets its own field and no other. */
  function WithCollapsible(b: StyleBuilder, collapsible: bool): (r: StyleBuilder)
    ensures r.collapsible == Some(collapsible)
    ensures forall f :: f != CollapsibleField ==> Agree(b, r, f)
  {
    b.(collapsible := Some(collapsible))
  }

  /** `with_margin_bottom`: sets its own field and no other. */
  function WithMarginBottom(b: StyleBuilder, marginBottom: nat): (r: StyleBuilder)
    ensures r.marginBottom == Some(marginBottom)
    ensures forall f :: f != MarginBottomField ==> Agree(b, r, f)
  {
    b.(marginBottom := Some(marginBottom))
  }

  /** `with_shape`: sets its own field and no other. */
  function WithShape(b: StyleBuilder, shape: Shape): (r: StyleBuilder)
    ensures r.shape == Some(shape)
    ensures forall f :: f != ShapeField ==> Agree(b, r, f)
  {
    b.(shape := Some(shape))
  }

  /** `with_vertical_label_position`: sets its own field and no other. */
  function WithVerticalLabelPosition(b: StyleBuilder, verticalLabelPosition: RelativePosition): (r: StyleBuilder)
    ensures r.verticalLabelPosition == Some(verticalLabelPosition)
    ensures forall f :: f != VerticalLabelPositionField ==> Agree(b, r, f)
  {
    b.(verticalLabelPosition := Some(verticalLabelPosition))
  }

  /** `with_html`: sets its own field and no other. */
  function WithHtml(b: StyleBuilder, html: bool): (r: StyleBuilder)
    ensures r.html == Some(html)
    ensures forall f :: f != HtmlField ==> Agree(b, r, f)
  {
    b.(html := Some(html))
  }

  /** `with_outline_connect`: sets its own field and no other. */
  function WithOutlineConnect(b: StyleBuilder, outlineConnect: bool): (r: StyleBuilder)
    ensures r.outlineConnect == Some(outlineConnect)
    ensures forall f :: f != OutlineConnectField ==> Agree(b, r, f)
  {
    b.(outlineConnect := Some(outlineConnect))
  }

  /** `with_rounded`: sets its own field and no other. */
  function WithRounded(b: StyleBuilder, rounded: bool): (r: StyleBuilder)
    ensures r.rounded == Some(rounded)
    ensures forall f :: f != RoundedField ==> Agree(b, r, f)
  {
    b.(rounded := Some(rounded))
  }

  /** `with_white_space`: sets its own field and no other. */
  function WithWhiteSpace(b: StyleBuilder, whiteSpace: WhiteSpace): (r: StyleBuilder)
    ensures r.whiteSpace == Some(whiteSpace)
    ensures forall f :: f != WhiteSpaceField ==> Agree(b, r, f)
  {
    b.(whiteSpace := Some(whiteSpace))
  }

  /** `with_entryx`: sets its own field and no other. */
  function WithEntryX(b: StyleBuilder, entryX: real): (r: StyleBuilder)
    ensures r.entryX == Some(entryX)
    ensures forall f :: f != EntryXField ==> Agree(b, r, f)
  {
    b.(entryX := Some(entryX))
  }

  /** `with_entryy`: sets its own field and no other. */
  function WithEntryY(b: StyleBuilder, entryY: real): (r: StyleBuilder)
    ensures r.entryY == Some(entryY)
    ensures forall f :: f != EntryYField ==> Agree(b, r, f)
  {
    b.(entryY := Some(entryY))
  }

  /** `with_entrydx`: sets its own field and no other. */
  function WithEntryDx(b: StyleBuilder, entryDx: real): (r: StyleBuilder)
    ensures r.entryDx == Some(entryDx)
    ensures forall f :: f != EntryDxField ==> Agree(b, r, f)
  {
    b.(entryDx := Some(entryDx))
  }

  /** `with_entrydy`: sets its own field and no other. */
  function WithEntryDy(b: StyleBuilder, entryDy: real): (r: StyleBuilder)
    ensures r.entryDy == Some(entryDy)
    ensures forall f :: f != EntryDyField ==> Agree(b, r, f)
  {
    b.(entryDy := Some(entryDy))
  }

  /** `StyleBuilder::build`: the shared fields, the builder-only ones dropped. */
  function Build(b: StyleBuilder): Style
  {
    Style(b.baseStyle, b.strokeColor, b.strokeWidth, b.fillColor, b.alignment, b.verticalAlignment, b.spacingTop, b.spacingLeft, b.spacingRight, b.rotatable, b.labelPosition, b.points, b.portConstraint, b.overflow, b.fontStyle, b.childLayout, b.horizontal, b.startSize, b.horizontalStack, b.resizeParent, b.resizeParentMax, b.resizeLast, b.collapsible, b.marginBottom)
  }

  /** The builder holding exactly the fields of `s`, the builder-only ones unset. */
  function Embed(s: Style): StyleBuilder
  {
    StyleBuilder(s.baseStyle, s.strokeColor, s.strokeWidth, s.fillColor, s.alignment, s.verticalAlignment, s.spacingTop, s.spacingLeft, s.spacingRight, s.rotatable, s.labelPosition, s.points, s.portConstraint, s.overflow, s.fontStyle, s.childLayout, s.horizontal, s.startSize, s.horizontalStack, s.resizeParent, s.resizeParentMax, s.resizeLast, s.collapsible, s.marginBottom, None, None, None, None, None, None, None, None, None, None)
  }

  /** `b` with its builder-only fields unset. */
  function Forget(b: StyleBuilder): StyleBuilder
  {
    b.(shape := None, verticalLabelPosition := None, html := None, outlineConnect := None, rounded := None, whiteSpace := None, entryX := None, entryY := None, entryDx := None, entryDy := None)
  }

  /** Building the embedding of a style gives that style back. */
  lemma BuildEmbed(s: Style)
    ensures Build(Embed(s)) == s
  {
  }

  /**
   * `build` keeps exactly the shared fields: what it loses is the
   * builder-only fields and nothing else.
   */
  lemma BuildForgetsBuilderOnly(b: StyleBuilder)
    ensures Embed(Build(b)) == Forget(b)
    ensures Build(Forget(b)) == Build(b)
  {
  }

  /** The builder-only setters change neither the built style nor, hence, its string. */
  lemma BuilderOnlySettersInvisible(b: StyleBuilder, shape: Shape, verticalLabelPosition: RelativePosition,
                                    html: bool, outlineConnect: bool, rounded: bool, whiteSpace: WhiteSpace,
                                    entryX: real, entryY: real, entryDx: real, entryDy: real)
    ensures Build(WithShape(b, shape)) == Build(b)
    ensures Build(WithVerticalLabelPosition(b, verticalLabelPosition)) == Build(b)
    ensures Build(WithHtml(b, html)) == Build(b)
    ensures Build(WithOutlineConnect(b, outlineConnect)) == Build(b)
    ensures Build(WithRounded(b, rounded)) == Build(b)
    ensures Build(WithWhiteSpace(b, whiteSpace)) == Build(b)
    ensures Build(WithEntryX(b, entryX)) == Build(b)
    ensures Build(WithEntryY(b, entryY)) == Build(b)
    ensures Build(WithEntryDx(b, entryDx)) == Build(b)
    ensures Build(WithEntryDy(b, entryDy)) == Build(b)
  {
  }

  /** A style built with no setter renders as the empty string. */
  lemma EmptyBuilderRendersEmpty()
    ensures Renderable(Build(New()))
    ensures Render(Build(New())) == ""
  {
    var s := Build(New());
    assert HeadEntries(s) == [] && ColourEntries(s) == [] && AlignEntries(s) == [] && LabelEntries(s) == [];
    assert PointEntries(s) == [] && ContainerEntries(s) == [] && ResizeEntries(s) == [] && ClosingEntries(s) == [];
    assert Entries(s) == [];
  }

  /** A prefix of `a + b` no longer than `a` is a prefix of `a`. */
  lemma TakeAppend(a: string, b: string, k: nat)
    requires k <= |a|
    ensures (a + b)[..k] == a[..k]
  {
  }

  /** The base style, when set, comes first, as `name;`. */
  lemma BaseStyleFirst(s: Style)
    requires Renderable(s) && s.baseStyle.Some?
    ensures HeadEntries(s)[0] == Base(BaseStyleName(s.baseStyle.value))
    ensures Render(s)[..|BaseStyleName(s.baseStyle.value)| + 1] == BaseStyleName(s.baseStyle.value) + ";"
  {
    var n := BaseStyleName(s.baseStyle.value);
    var t := n + ";";
    var k := |t|;
    ConcatAppend([Base(n)], NatEntry("fontStyle", s.fontStyle));
    ConcatSingle(Base(n));
    var r := Concat(HeadEntries(s));
    assert r == t + Concat(NatEntry("fontStyle", s.fontStyle));
    TakeAppend(t, Concat(NatEntry("fontStyle", s.fontStyle)), k);
    assert t[..k] == t;
    TakeAppend(r, Concat(ColourEntries(s)), k);
    r := r + Concat(ColourEntries(s));
    TakeAppend(r, Concat(AlignEntries(s)), k);
    r := r + Concat(AlignEntries(s));
    TakeAppend(r, Concat(LabelEntries(s)), k);
    r := r + Concat(LabelEntries(s));
    TakeAppend(r, Concat(PointEntries(s)), k);
    r := r + Concat(PointEntries(s));
    TakeAppend(r, Concat(ContainerEntries(s)), k);
    r := r + Concat(ContainerEntries(s));
    TakeAppend(r, Concat(ResizeEntries(s)), k);
    r := r + Concat(ResizeEntries(s));
    TakeAppend(r, Concat(ClosingEntries(s)), k);
    r := r + Concat(ClosingEntries(s));
    assert r == Render(s);
  }

  /** What the colour section holds for each base style. */
  lemma ColourEntriesByBase(s: Style)
    ensures s.baseStyle.None? || s.baseStyle == Some(SwimLane) ==> ColourEntries(s) == []
    ensures s.baseStyle == Some(Text) ==> ColourEntries(s) == [Setting("strokeColor", "none"), Setting("fillColor", "none")]
    ensures s.baseStyle == Some(Line) ==> ColourEntries(s) == NatEntry("strokeWidth", s.strokeWidth) + [Setting("fillColor", "none")]
  {
  }

  /** The points are written exactly for `Line` and `Text`, as `points=[…];`. */
  lemma PointEntriesByBase(s: Style)
    ensures PointEntries(s) != [] <==> s.baseStyle == Some(Line) || s.baseStyle == Some(Text)
    ensures PointEntries(s) != [] ==> PointEntries(s) == [Setting("points", PointsText(s.points))]
  {
  }

  /** The rendered string is the entries of all sections, in order, each as its text. */
  lemma RenderIsEntries(s: Style)
    requires Renderable(s)
    ensures Render(s) == Concat(Entries(s))
  {
    var es := HeadEntries(s);
    ConcatAppend(es, ColourEntries(s));
    es := es + ColourEntries(s);
    ConcatAppend(es, AlignEntries(s));
    es := es + AlignEntries(s);
    ConcatAppend(es, LabelEntries(s));
    es := es + LabelEntries(s);
    ConcatAppend(es, PointEntries(s));
    es := es + PointEntries(s);
    ConcatAppend(es, ContainerEntries(s));
    es := es + ContainerEntries(s);
    ConcatAppend(es, ResizeEntries(s));
    es := es + ResizeEntries(s);
    ConcatAppend(es, ClosingEntries(s));
    es := es + ClosingEntries(s);
    assert es == Entries(s);
  }

  /** A set boolean field renders as `1` or `0`. */
  lemma BoolEntryDigits(key: string, b: bool)
    ensures BoolEntry(key, Some(b)) == [Setting(key, if b then "1" else "0")]
  {
  }

  /** An empty points list renders as `[]`, one point as `[[x,y]]`. */
  lemma PointsTextSmall(p: Point)
    ensures PointsText([]) == "[]"
    ensures PointsText([p]) == "[[" + p.x + "," + p.y + "]]"
  {
  }

  /** `Style::default_line`. */
  function DefaultLine(): (r: Style)
    ensures r == Style(Some(Line), None, Some(1), None, Some(Left), Some(Middle), Some(-1), Some(3), Some(3), Some(false), Some(Right), [],
                       Some(EastWest), None, None, None, None, None, None, None, None, None, None, None)
  {
    var b := WithBaseStyle(New(), Line);
    var b := WithStrokeWidth(b, 1);
    var b := WithAlignment(b, Left);
    var b := WithVerticalAlignment(b, Middle);
    var b := WithSpacingTop(b, -1);
    var b := WithSpacingLeft(b, 3);
    var b := WithSpacingRight(b, 3);
    var b := WithRotatable(b, false);
    var b := WithLabelPosition(b, Right);
    var b := WithPortConstraint(b, EastWest);
    Build(b)
  }

  /** `Style::default_swimlane`. */
  function DefaultSwimlane(): (r: Style)
    ensures r == Style(Some(SwimLane), None, None, None, Some(Center), Some(Top), None, None, None, None, None, [],
                       None, None, Some(1), Some(Stack), Some(true), Some(26), Some(false), Some(true), Some(0), Some(false), Some(true), Some(0))
  {
    var b := WithBaseStyle(New(), SwimLane);
    var b := WithFontStyle(b, 1);
    var b := WithAlignment(b, Center);
    var b := WithVerticalAlignment(b, Top);
    var b := WithChildLayout(b, Stack);
    var b := WithHorizontal(b, true);
    var b := WithStartSize(b, 26);
    var b := WithHorizontalStack(b, false);
    var b := WithResizeParent(b, true);
    var b := WithResizeParentMax(b, 0);
    var b := WithResizeLast(b, false);
    var b := WithCollapsible(b, true);
    var b := WithMarginBottom(b, 0);
    Build(b)
  }

  lemma SmallNumbers()
    ensures NatText(0) == "0" && NatText(1) == "1" && NatText(3) == "3" && NatText(26) == "26"
    ensures IntText(-1) == "-1" && IntText(3) == "3"
  {
    assert NatText(26) == NatText(2) + [DigitChar(6)];
  }


  lemma ConcatTwo(a: Entry, b: Entry)
    ensures Concat([a, b]) == EntryText(a) + EntryText(b)
  {
    ConcatCons(a, [b]);
    ConcatSingle(b);
    assert [a, b] == [a] + [b];
  }

  lemma ConcatThree(a: Entry, b: Entry, c: Entry)
    ensures Concat([a, b, c]) == EntryText(a) + EntryText(b) + EntryText(c)
  {
    ConcatCons(a, [b, c]);
    ConcatTwo(b, c);
    assert [a, b, c] == [a] + [b, c];
  }

  lemma ConcatFour(a: Entry, b: Entry, c: Entry, d: Entry)
    ensures Concat([a, b, c, d]) == EntryText(a) + EntryText(b) + EntryText(c) + EntryText(d)
  {
    ConcatCons(a, [b, c, d]);
    ConcatThree(b, c, d);
    assert [a, b, c, d] == [a] + [b, c, d];
  }

  /** The section-by-section entries of `default_line`. */
  lemma DefaultLineSections()
    ensures var s := DefaultLine();
      HeadEntries(s) == [Base("line")] &&
      ColourEntries(s) == [Setting("strokeWidth", "1"), Setting("fillColor", "none")] &&
      AlignEntries(s) == [Setting("align", "left"), Setting("verticalAlign", "middle"), Setting("spacingTop", "-1"), Setting("spacingLeft", "3")] &&
      LabelEntries(s) == [Setting("spacingRight", "3"), Setting("rotatable", "0"), Setting("labelPosition", "right")] &&
      PointEntries(s) == [Setting("points", "[]")] &&
      ContainerEntries(s) == [Setting("portConstraint", "eastwest")] &&
      ResizeEntries(s) == [] && ClosingEntries(s) == []
  {
    SmallNumbers();
    assert PointsText([]) == "[]";
  }

  /** The `key=value;` pieces of `default_line`. */
  lemma DefaultLinePieces()
    ensures EntryText(Base("line")) == "line;"
    ensures EntryText(Setting("strokeWidth", "1")) == "strokeWidth=1;"
    ensures EntryText(Setting("fillColor", "none")) == "fillColor=none;"
    ensures EntryText(Setting("align", "left")) == "align=left;"
    ensures EntryText(Setting("verticalAlign", "middle")) == "verticalAlign=middle;"
    ensures EntryText(Setting("spacingTop", "-1")) == "spacingTop=-1;"
    ensures EntryText(Setting("spacingLeft", "3")) == "spacingLeft=3;"
  {
  }

  lemma DefaultLineMorePieces()
    ensures EntryText(Setting("spacingRight", "3")) == "spacingRight=3;"
    ensures EntryText(Setting("rotatable", "0")) == "rotatable=0;"
    ensures EntryText(Setting("labelPosition", "right")) == "labelPosition=right;"
    ensures EntryText(Setting("points", "[]")) == "points=[];"
    ensures EntryText(Setting("portConstraint", "eastwest")) == "portConstraint=eastwest;"
  {
  }

  /**
   * The string `default_line` asserts for itself (dialang/src/style.rs:181):
   * its `key=value;` pieces, grouped by section in parentheses, concatenate
   * to exactly that literal; the last two sections are empty.
   */
  lemma DefaultLineRenders()
    ensures Renderable(DefaultLine())
    ensures Render(DefaultLine()) ==
      "line;" + ("strokeWidth=1;" + "fillColor=none;") +
      ("align=left;" + "verticalAlign=middle;" + "spacingTop=-1;" + "spacingLeft=3;") +
      ("spacingRight=3;" + "rotatable=0;" + "labelPosition=right;") + "points=[];" + "portConstraint=eastwest;" + "" + ""
  {
    DefaultLineSections();
    DefaultLinePieces();
    DefaultLineMorePieces();
    ConcatSingle(Base("line"));
    ConcatTwo(Setting("strokeWidth", "1"), Setting("fillColor", "none"));
    ConcatFour(Setting("align", "left"), Setting("verticalAlign", "middle"), Setting("spacingTop", "-1"), Setting("spacingLeft", "3"));
    ConcatThree(Setting("spacingRight", "3"), Setting("rotatable", "0"), Setting("labelPosition", "right"));
    ConcatSingle(Setting("points", "[]"));
    ConcatSingle(Setting("portConstraint", "eastwest"));
  }

  /** The section-by-section entries of `default_swimlane`. */
  lemma DefaultSwimlaneHead()
    ensures var s := DefaultSwimlane();
      HeadEntries(s) == [Base("swimlane"), Setting("fontStyle", "1")] &&
      ColourEntries(s) == [] &&
      AlignEntries(s) == [Setting("align", "center"), Setting("verticalAlign", "top")] &&
      LabelEntries(s) == [] && PointEntries(s) == []
  {
    SmallNumbers();
  }

  lemma DefaultSwimlaneTail()
    ensures var s := DefaultSwimlane();
      ContainerEntries(s) == [Setting("childLayout", "stackLayout"), Setting("horizontal", "1"), Setting("startSize", "26")] &&
      ResizeEntries(s) == [Setting("horizontalStack", "0"), Setting("resizeParent", "1"), Setting("resizeParentMax", "0")] &&
      ClosingEntries(s) == [Setting("resizeLast", "0"), Setting("collapsible", "1"), Setting("marginBottom", "0")]
  {
    SmallNumbers();
  }

  lemma DefaultSwimlaneSections()
    ensures var s := DefaultSwimlane();
      HeadEntries(s) == [Base("swimlane"), Setting("fontStyle", "1")] &&
      ColourEntries(s) == [] &&
      AlignEntries(s) == [Setting("align", "center"), Setting("verticalAlign", "top")] &&
      LabelEntries(s) == [] && PointEntries(s) == []
    ensures var s := DefaultSwimlane();
      ContainerEntries(s) == [Setting("childLayout", "stackLayout"), Setting("horizontal", "1"), Setting("startSize", "26")] &&
      ResizeEntries(s) == [Setting("horizontalStack", "0"), Setting("resizeParent", "1"), Setting("resizeParentMax", "0")] &&
      ClosingEntries(s) == [Setting("resizeLast", "0"), Setting("collapsible", "1"), Setting("marginBottom", "0")]
  {
    DefaultSwimlaneHead();
    DefaultSwimlaneTail();
  }

  /** The `key=value;` pieces of `default_swimlane`. */
  lemma DefaultSwimlanePieces()
    ensures EntryText(Base("swimlane")) == "swimlane;"
    ensures EntryText(Setting("fontStyle", "1")) == "fontStyle=1;"
    ensures EntryText(Setting("align", "center")) == "align=center;"
    ensures EntryText(Setting("verticalAlign", "top")) == "verticalAlign=top;"
    ensures EntryText(Setting("childLayout", "stackLayout")) == "childLayout=stackLayout;"
    ensures EntryText(Setting("horizontal", "1")) == "horizontal=1;"
    ensures EntryText(Setting("startSize", "26")) == "startSize=26;"
  {
  }

  lemma DefaultSwimlaneMorePieces()
    ensures EntryText(Setting("horizontalStack", "0")) == "horizontalStack=0;"
    ensures EntryText(Setting("resizeParent", "1")) == "resizeParent=1;"
    ensures EntryText(Setting("resizeParentMax", "0")) == "resizeParentMax=0;"
    ensures EntryText(Setting("resizeLast", "0")) == "resizeLast=0;"
    ensures EntryText(Setting("collapsible", "1")) == "collapsible=1;"
    ensures EntryText(Setting("marginBottom", "0")) == "marginBottom=0;"
  {
  }

  /**
   * The string `default_swimlane` asserts for itself (dialang/src/style.rs:222):
   * its `key=value;` pieces, grouped by section in parentheses, concatenate
   * to exactly that literal; three sections are empty.
   */
  lemma DefaultSwimlaneRenders()
    ensures Renderable(DefaultSwimlane())
    ensures Render(DefaultSwimlane()) ==
      ("swimlane;" + "fontStyle=1;") + "" + ("align=center;" + "verticalAlign=top;") + "" + "" +
      ("childLayout=stackLayout;" + "horizontal=1;" + "startSize=26;") +
      ("horizontalStack=0;" + "resizeParent=1;" + "resizeParentMax=0;") +
      ("resizeLast=0;" + "collapsible=1;" + "marginBottom=0;")
  {
    DefaultSwimlaneSections();
    DefaultSwimlanePieces();
    DefaultSwimlaneMorePieces();
    ConcatTwo(Base("swimlane"), Setting("fontStyle", "1"));
    ConcatTwo(Setting("align", "center"), Setting("verticalAlign", "top"));
    ConcatThree(Setting("childLayout", "stackLayout"), Setting("horizontal", "1"), Setting("startSize", "26"));
    ConcatThree(Setting("horizontalStack", "0"), Setting("resizeParent", "1"), Setting("resizeParentMax", "0"));
    ConcatThree(Setting("resizeLast", "0"), Setting("collapsible", "1"), Setting("marginBottom", "0"));
  }
}
