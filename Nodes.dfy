/** The geometry node tree: primitives, transforms that wrap one child, the
    difference of several children, and imported shapes that carry their own
    box. Every node renders to script text and answers where it is and what
    box it occupies. */
module Nodes {
  import opened Strings
  import opened Spatial
  import opened Outcomes
  import opened DataBinding
  import opened Scripting
  import opened Cylinders
  import opened Spheres

  datatype Node =
    | CylinderNode(cylinder: CylinderState)
    | SphereNode(sphere: SphereState)
    | Scaled(child: Node, factor: Vector3)
    | Translated(child: Node, dx: Expr, dy: Expr, dz: Expr)
    | Rotated(child: Node, angle: Expr)
    | Colored(child: Node, color: Expr, opacity: real)
    | Difference(children: seq<Node>)
    | Imported(inner: Node, stored: Bounds)

  /** The scale factor of a scaled node that was given none. */
  const DefaultScaleFactor := Vector3(1.0, 1.0, 1.0)

  const DifferenceHeader := "difference()"

  /** `scale(v = [X, Y, Z])`, the components in x, y, z order. */
  function ScaleHeader(factor: Vector3): (r: string)
    ensures StartsWith(r, "scale(v = [" + NumText(factor.x) + ", ")
    ensures EndsWith(r, ", " + NumText(factor.z) + "])")
    ensures var front := "scale(v = [" + NumText(factor.x) + ", ";
      var back := ", " + NumText(factor.z) + "])";
      |r| >= |front| + |back| && r[|front|..|r| - |back|] == NumText(factor.y)
  {
    var front := "scale(v = [" + NumText(factor.x) + ", ";
    var back := ", " + NumText(factor.z) + "])";
    Framed(front, NumText(factor.y), back);
    front + NumText(factor.y) + back
  }

  /** `translate(v = [X, Y, Z])` with each offset's text. */
  function TranslateHeader(dx: Expr, dy: Expr, dz: Expr): string {
    "translate(v = [" + Render(dx) + ", " + Render(dy) + ", " + Render(dz) + "])"
  }

  function RotateHeader(angle: Expr): string {
    "rotate(" + Render(angle) + ")"
  }

  function ColorHeader(color: Expr, opacity: real): string {
    "color(" + Render(color) + ", " + NumText(opacity) + ")"
  }

  /** A colour header opens with `color(` and the colour's text. */
  lemma ColorHeaderOpens(color: Expr, opacity: real)
    ensures StartsWith(ColorHeader(color, opacity), "color(" + Render(color))
  {
    OpensWithThree("color(" + Render(color), ", ", NumText(opacity), ")");
  }

  /** Whether a node wraps exactly one child. */
  predicate IsWrapper(n: Node) {
    n.Scaled? || n.Translated? || n.Rotated? || n.Colored?
  }

  /** The header of a wrapper's block. */
  function WrapperHeader(n: Node): string
    requires IsWrapper(n)
  {
    match n
    case Scaled(_, f) => ScaleHeader(f)
    case Translated(_, dx, dy, dz) => TranslateHeader(dx, dy, dz)
    case Rotated(_, a) => RotateHeader(a)
    case Colored(_, color, opacity) => ColorHeader(color, opacity)
  }

  /** The script of a node: a primitive's leaf statement; a wrapper's header
      with its child's script as the block body; a difference's header with its
      children's scripts, in order, as the body; an imported shape's inner
      script as it is. */
  function Script(n: Node): (r: string)
    ensures IsWrapper(n) ==> StartsWith(r, WrapperHeader(n) + "\n{\n")
    ensures n.Difference? ==> StartsWith(r, DifferenceHeader + "\n{\n")
    decreases n
  {
    match n
    case CylinderNode(s) => CylinderScript(s)
    case SphereNode(s) => SphereScript(s)
    case Scaled(c, _) => BlockOpens(WrapperHeader(n), Script(c)); Block(WrapperHeader(n), Script(c))
    case Translated(c, _, _, _) => BlockOpens(WrapperHeader(n), Script(c)); Block(WrapperHeader(n), Script(c))
    case Rotated(c, _) => BlockOpens(WrapperHeader(n), Script(c)); Block(WrapperHeader(n), Script(c))
    case Colored(c, _, _) => BlockOpens(WrapperHeader(n), Script(c)); Block(WrapperHeader(n), Script(c))
    case Difference(cs) =>
      BlockOpens(DifferenceHeader, Join(ChildScripts(cs), "\n"));
      Block(DifferenceHeader, Join(ChildScripts(cs), "\n"))
    case Imported(inner, _) => Script(inner)
  }

  /** The scripts of the children, in order. */
  function ChildScripts(cs: seq<Node>): (scripts: seq<string>)
    ensures |scripts| == |cs|
    ensures forall k :: 0 <= k < |cs| ==> scripts[k] == Script(cs[k])
    decreases cs
  {
    if cs == [] then [] else [Script(cs[0])] + ChildScripts(cs[1..])
  }

  /** Where a node sits: a cylinder's anchor, a difference's first child's
      position, an imported shape's box centre. */
  function Position(n: Node): (r: Result<Vector3>)
    ensures r.Ok? ==> n.CylinderNode? || n.Difference? || n.Imported?
    ensures n.Difference? && r.Ok? ==> |n.children| > 0
    ensures n.Imported? ==> r.Ok?
    decreases n
  {
    match n
    case CylinderNode(s) => CylinderPosition(s)
    case Difference(cs) => if |cs| == 0 then Err(NoChildren) else Position(cs[0])
    case Imported(_, b) => Ok(Centre(b))
    case _ => Err(Unmodelled)
  }

  /** The box a node occupies: a cylinder's box, a difference's first child's
      box, an imported shape's stored box. */
  function NodeBounds(n: Node): (r: Result<Bounds>)
    ensures r.Ok? ==> n.CylinderNode? || n.Difference? || n.Imported?
    ensures n.Difference? && r.Ok? ==> |n.children| > 0
    ensures n.Imported? ==> r.Ok?
    decreases n
  {
    match n
    case CylinderNode(s) => CylinderBounds(s)
    case Difference(cs) => if |cs| == 0 then Err(NoChildren) else NodeBounds(cs[0])
    case Imported(_, b) => Ok(b)
    case _ => Err(Unmodelled)
  }

  // Difference.

  /** A difference answers with its first child's position and box, whatever
      the children subtracted from it. */
  lemma DifferenceDelegates(first: Node, rest: seq<Node>)
    ensures Position(Difference([first] + rest)) == Position(first)
    ensures NodeBounds(Difference([first] + rest)) == NodeBounds(first)
  {
    assert ([first] + rest)[0] == first;
  }

  /** A difference without children has neither position nor box. */
  lemma EmptyDifference()
    ensures Position(Difference([])) == Err(NoChildren)
    ensures NodeBounds(Difference([])) == Err(NoChildren)
  {
  }

  /** A difference opens with `difference()`, holds every child's script
      unchanged, and the first child's script comes first. */
  lemma DifferenceScript(cs: seq<Node>)
    requires |cs| > 0
    ensures StartsWith(Script(Difference(cs)), DifferenceHeader + "\n{\n" + Script(cs[0]))
    ensures forall k :: 0 <= k < |cs| ==> Contains(Script(Difference(cs)), Script(cs[k]))
  {
    DifferenceIsBlock(cs);
    BlockOfScripts(DifferenceHeader, ChildScripts(cs));
  }

  /** A difference's script is the block of its header around its children's
      scripts, one per line. */
  lemma DifferenceIsBlock(cs: seq<Node>)
    ensures Script(Difference(cs)) == Block(DifferenceHeader, Join(ChildScripts(cs), "\n"))
  {
  }

  // Scale.

  /** A scaled node opens with `scale(v = [X, Y, Z])` and holds its child's
      script unchanged. */
  lemma ScaledScript(child: Node, factor: Vector3)
    ensures StartsWith(Script(Scaled(child, factor)), ScaleHeader(factor) + "\n{\n" + Script(child))
    ensures Contains(Script(Scaled(child, factor)), Script(child))
    ensures EndsWith(Script(Scaled(child, factor)), "}")
  {
    WrapperIsBlock(Scaled(child, factor));
    BlockEmbedsBody(ScaleHeader(factor), Script(child));
  }

  /** The default scale factor renders as `scale(v = [1, 1, 1])`. */
  lemma DefaultScaleHeader()
    ensures ScaleHeader(DefaultScaleFactor) == "scale(v = [1, 1, 1])"
  {
    NatTextOfIntegral(1);
    assert NumText(1.0) == "1";
  }

  /** Every wrapper opens with its header and holds its child's script unchanged. */
  lemma WrapperEmbedsChild(n: Node)
    requires IsWrapper(n)
    ensures StartsWith(Script(n), WrapperHeader(n) + "\n{\n" + Script(n.child))
    ensures StartsWith(Script(n), WrapperHeader(n))
    ensures Contains(Script(n), Script(n.child))
  {
    WrapperIsBlock(n);
    BlockOpensWith(WrapperHeader(n), Script(n.child));
  }

  /** A wrapper's script is the block of its header around its child's script. */
  lemma WrapperIsBlock(n: Node)
    requires IsWrapper(n)
    ensures Script(n) == Block(WrapperHeader(n), Script(n.child))
  {
  }

  // Imported shapes.

  /** An imported shape reports its stored box, is positioned at that box's
      centre, and renders as its inner node. */
  lemma ImportedGeometry(inner: Node, stored: Bounds)
    ensures NodeBounds(Imported(inner, stored)) == Ok(stored)
    ensures Position(Imported(inner, stored)) == Ok(Average(stored.bottomLeft, stored.topRight))
    ensures Script(Imported(inner, stored)) == Script(inner)
  {
  }

  /** An imported shape's box and position depend on its stored box alone and
      never on the inner node; its script depends on the inner node alone and
      never on the stored box. */
  lemma ImportedSplit(inner1: Node, inner2: Node, stored1: Bounds, stored2: Bounds)
    ensures NodeBounds(Imported(inner1, stored1)) == NodeBounds(Imported(inner2, stored1))
    ensures Position(Imported(inner1, stored1)) == Position(Imported(inner2, stored1))
    ensures Script(Imported(inner1, stored1)) == Script(Imported(inner1, stored2))
    ensures stored1 != stored2 ==> NodeBounds(Imported(inner1, stored1)) != NodeBounds(Imported(inner1, stored2))
  {
    ImportedGeometry(inner1, stored1);
    ImportedGeometry(inner2, stored1);
    ImportedGeometry(inner1, stored2);
  }

  /** The position of an imported shape with an ordered box lies inside the box. */
  lemma ImportedPositionInside(inner: Node, stored: Bounds)
    requires Ordered(stored)
    ensures Inside(Position(Imported(inner, stored)).value, stored)
  {
    CentreInside(stored);
  }

  // Position and box agree.

  /** Wherever both are known, a node's position is the centre of its box. */
  lemma {:induction false} PositionIsBoundsCentre(n: Node)
    requires Position(n).Ok? && NodeBounds(n).Ok?
    ensures Position(n).value == Centre(NodeBounds(n).value)
    decreases n
  {
    match n
    case CylinderNode(s) =>
      CylinderPositionIsCentre(s);
    case Difference(cs) =>
      PositionIsBoundsCentre(cs[0]);
    case Imported(_, _) =>
  }

  // Cloning.

  /** Cloning a node: an independent copy of the whole tree, each imported
      shape copied with its box. */
  function Clone(n: Node): (r: Node)
    ensures r.Imported? <==> n.Imported?
    ensures n.Imported? ==> r.stored == n.stored
    decreases n
  {
    match n
    case CylinderNode(s) => CylinderNode(s)
    case SphereNode(s) => SphereNode(s)
    case Scaled(c, f) => Scaled(Clone(c), f)
    case Translated(c, dx, dy, dz) => Translated(Clone(c), dx, dy, dz)
    case Rotated(c, a) => Rotated(Clone(c), a)
    case Colored(c, color, opacity) => Colored(Clone(c), color, opacity)
    case Difference(cs) => Difference(CloneAll(cs))
    case Imported(inner, b) => Imported(Clone(inner), b)
  }

  function CloneAll(cs: seq<Node>): (r: seq<Node>)
    ensures |r| == |cs|
    ensures forall k :: 0 <= k < |cs| ==> r[k] == Clone(cs[k])
    decreases cs
  {
    if cs == [] then [] else [Clone(cs[0])] + CloneAll(cs[1..])
  }

  /** A clone equals its original, so it renders the same script and has the
      same position and box. */
  lemma {:induction false} CloneEqual(n: Node)
    ensures Clone(n) == n
    decreases n
  {
    match n
    case CylinderNode(_) =>
    case SphereNode(_) =>
    case Scaled(c, _) => CloneEqual(c);
    case Translated(c, _, _, _) => CloneEqual(c);
    case Rotated(c, _) => CloneEqual(c);
    case Colored(c, _, _) => CloneEqual(c);
    case Difference(cs) =>
      forall k | 0 <= k < |cs|
        ensures CloneAll(cs)[k] == cs[k]
      {
        CloneEqual(cs[k]);
      }
      assert CloneAll(cs) == cs;
    case Imported(inner, _) => CloneEqual(inner);
  }

  /** Cloning keeps the script, the position and the box. */
  lemma CloneKeeps(n: Node)
    ensures Script(Clone(n)) == Script(n)
    ensures Position(Clone(n)) == Position(n)
    ensures NodeBounds(Clone(n)) == NodeBounds(n)
  {
    CloneEqual(n);
  }

  /** Cloning as the imported shape does it: the clone of an imported shape is
      the clone of its inner node, and its stored box is dropped. */
  function CloneAsWritten(n: Node): (r: Node)
    ensures !r.Imported?
    ensures !n.Imported? ==> r.CylinderNode? == n.CylinderNode? && r.SphereNode? == n.SphereNode?
    decreases n
  {
    match n
    case CylinderNode(s) => CylinderNode(s)
    case SphereNode(s) => SphereNode(s)
    case Scaled(c, f) => Scaled(CloneAsWritten(c), f)
    case Translated(c, dx, dy, dz) => Translated(CloneAsWritten(c), dx, dy, dz)
    case Rotated(c, a) => Rotated(CloneAsWritten(c), a)
    case Colored(c, color, opacity) => Colored(CloneAsWritten(c), color, opacity)
    case Difference(cs) => Difference(CloneAllAsWritten(cs))
    case Imported(inner, _) => CloneAsWritten(inner)
  }

  function CloneAllAsWritten(cs: seq<Node>): (r: seq<Node>)
    ensures |r| == |cs|
    ensures forall k :: 0 <= k < |cs| ==> r[k] == CloneAsWritten(cs[k])
    decreases cs
  {
    if cs == [] then [] else [CloneAsWritten(cs[0])] + CloneAllAsWritten(cs[1..])
  }

  /** The clone as written still renders the same script. */
  lemma {:induction false} CloneAsWrittenKeepsScript(n: Node)
    ensures Script(CloneAsWritten(n)) == Script(n)
    decreases n
  {
    match n
    case CylinderNode(_) =>
    case SphereNode(_) =>
    case Scaled(c, _) => CloneAsWrittenKeepsScript(c); WrapperScript(n, CloneAsWritten(n));
    case Translated(c, _, _, _) => CloneAsWrittenKeepsScript(c); WrapperScript(n, CloneAsWritten(n));
    case Rotated(c, _) => CloneAsWrittenKeepsScript(c); WrapperScript(n, CloneAsWritten(n));
    case Colored(c, _, _) => CloneAsWrittenKeepsScript(c); WrapperScript(n, CloneAsWritten(n));
    case Difference(cs) => CloneAllAsWrittenKeepsScripts(cs);
    case Imported(inner, _) => CloneAsWrittenKeepsScript(inner);
  }

  /** Two wrappers with the same header around children with the same script
      render the same script. */
  lemma WrapperScript(n: Node, m: Node)
    requires IsWrapper(n) && IsWrapper(m) && WrapperHeader(n) == WrapperHeader(m)
    requires Script(n.child) == Script(m.child)
    ensures Script(n) == Script(m)
  {
  }

  /** The children cloned as written still render the same scripts. */
  lemma {:induction false} CloneAllAsWrittenKeepsScripts(cs: seq<Node>)
    ensures ChildScripts(CloneAllAsWritten(cs)) == ChildScripts(cs)
    decreases cs
  {
    forall k | 0 <= k < |cs|
      ensures ChildScripts(CloneAllAsWritten(cs))[k] == ChildScripts(cs)[k]
    {
      CloneAsWrittenKeepsScript(cs[k]);
    }
  }

  /** The clone as written loses an imported shape's box: an imported 2-by-2
      cylinder stored with the box (0, 0, 0)..(4, 4, 4) reports that box and its
      centre (2, 2, 2), while its clone reports the cylinder's own box and its
      anchor (0, 0, 1). */
  lemma CloneAsWrittenLosesBounds()
    ensures var n := Imported(CylinderNode(DiameterCylinder(2.0, 2.0, false)),
                              Bounds(Origin, Vector3(4.0, 4.0, 4.0)));
      && NodeBounds(n) == Ok(Bounds(Origin, Vector3(4.0, 4.0, 4.0)))
      && Position(n) == Ok(Vector3(2.0, 2.0, 2.0))
      && NodeBounds(CloneAsWritten(n)) == Ok(Bounds(Vector3(-1.0, -1.0, 0.0), Vector3(1.0, 1.0, 2.0)))
      && Position(CloneAsWritten(n)) == Ok(Vector3(0.0, 0.0, 1.0))
  {
    DiameterCylinderGeometry(2.0, 2.0, false);
  }
}
