/** Variables and the expressions built from them by arithmetic. Each expression
    has two independent readings: its numeric value, used by geometry, and its
    text, which is what appears in the script. */
module DataBinding {
  import opened Strings
  import opened Spatial
  import opened Outcomes

  /** The value a variable carries. */
  datatype Value = Number(x: real) | Boolean(b: bool) | Characters(s: string) | Vector(v: Vector3)

  datatype Op = Add | Sub | Mul | Div

  /** A named variable, a numeric literal, or arithmetic over them. */
  datatype Expr =
    | Variable(name: string, value: Value)
    | Literal(x: real)
    | Binary(op: Op, lhs: Expr, rhs: Expr)
    | Negate(operand: Expr)

  function OpText(op: Op): string {
    match op
    case Add => "+"
    case Sub => "-"
    case Mul => "*"
    case Div => "/"
  }

  /** Numeric arithmetic; a division by zero has no numeric value. */
  function Apply(op: Op, a: real, b: real): (r: Option<real>)
    ensures r.None? <==> (op == Div && b == 0.0)
    ensures op == Add && r.Some? ==> r.value - b == a
    ensures op == Sub && r.Some? ==> r.value + b == a
    ensures op == Mul && r.Some? && b != 0.0 ==> r.value / b == a
    ensures op == Mul && b == 0.0 ==> r == Some(0.0)
    ensures op == Div && r.Some? ==> r.value * b == a
  {
    match op
    case Add => Some(a + b)
    case Sub => Some(a - b)
    case Mul => ProductUndone(a, b); Some(a * b)
    case Div => if b == 0.0 then None else Some(a / b)
  }

  /** Dividing a product by a non-zero factor gives the other factor back. */
  lemma ProductUndone(a: real, b: real)
    ensures b != 0.0 ==> (a * b) / b == a
  {
    if b != 0.0 {
      assert (a * b) / b * b == a * b;
    }
  }

  /** The numeric value of an expression, when it has one: a variable holding
      anything but a number has none, and neither has any expression built on it. */
  function Eval(e: Expr): (r: Option<real>)
    ensures e.Binary? && r.Some? ==> Eval(e.lhs).Some? && Eval(e.rhs).Some?
    ensures e.Negate? ==> (r.Some? <==> Eval(e.operand).Some?)
    ensures e.Variable? ==> (r.Some? <==> e.value.Number?)
  {
    match e
    case Variable(_, v) => if v.Number? then Some(v.x) else None
    case Literal(x) => Some(x)
    case Binary(op, l, r) =>
      (match (Eval(l), Eval(r))
       case (Some(a), Some(b)) => Apply(op, a, b)
       case _ => None)
    case Negate(e') =>
      (match Eval(e')
       case Some(a) => Some(-a)
       case None => None)
  }

  /** The script text of an expression: a variable by its name, a literal by its
      digits, arithmetic as `lhs op rhs` without evaluating anything and without
      parentheses, negation as a leading minus. */
  function Render(e: Expr): string {
    match e
    case Variable(name, _) => name
    case Literal(x) => NumText(x)
    case Binary(op, l, r) => Render(l) + " " + OpText(op) + " " + Render(r)
    case Negate(e') => "-" + Render(e')
  }

  /** Arithmetic renders its left operand, the operator between spaces, then its
      right operand; a negation opens with a minus. */
  lemma RenderShape(e: Expr)
    ensures e.Binary? ==> StartsWith(Render(e), Render(e.lhs) + " " + OpText(e.op) + " ")
                          && EndsWith(Render(e), Render(e.rhs))
    ensures e.Negate? ==> StartsWith(Render(e), "-")
  {
    match e
    case Binary(op, l, r) =>
      var front := Render(l) + " " + OpText(op) + " ";
      OpensWith(front, Render(r));
      assert Render(e)[|front|..] == Render(r);
    case Negate(e') => OpensWith("-", Render(e'));
    case _ =>
  }

  /** Two expressions of the same form over the same names and literals; the
      values the variables hold may differ. */
  predicate SameText(e1: Expr, e2: Expr) {
    match (e1, e2)
    case (Variable(n1, _), Variable(n2, _)) => n1 == n2
    case (Literal(x1), Literal(x2)) => x1 == x2
    case (Binary(o1, l1, r1), Binary(o2, l2, r2)) => o1 == o2 && SameText(l1, l2) && SameText(r1, r2)
    case (Negate(a1), Negate(a2)) => SameText(a1, a2)
    case _ => false
  }

  /** Two expressions of the same form over the same values and literals; the
      variables' names may differ. */
  predicate SameValues(e1: Expr, e2: Expr) {
    match (e1, e2)
    case (Variable(_, v1), Variable(_, v2)) => v1 == v2
    case (Literal(x1), Literal(x2)) => x1 == x2
    case (Binary(o1, l1, r1), Binary(o2, l2, r2)) => o1 == o2 && SameValues(l1, l2) && SameValues(r1, r2)
    case (Negate(a1), Negate(a2)) => SameValues(a1, a2)
    case _ => false
  }

  /** The text never depends on the values: symbolic arithmetic stays unevaluated. */
  lemma {:induction false} RenderIgnoresValues(e1: Expr, e2: Expr)
    requires SameText(e1, e2)
    ensures Render(e1) == Render(e2)
  {
    match (e1, e2)
    case (Variable(_, _), Variable(_, _)) =>
    case (Literal(_), Literal(_)) =>
    case (Binary(_, l1, r1), Binary(_, l2, r2)) =>
      RenderIgnoresValues(l1, l2);
      RenderIgnoresValues(r1, r2);
    case (Negate(a1), Negate(a2)) =>
      RenderIgnoresValues(a1, a2);
  }

  /** The value never depends on the names. */
  lemma {:induction false} EvalIgnoresNames(e1: Expr, e2: Expr)
    requires SameValues(e1, e2)
    ensures Eval(e1) == Eval(e2)
  {
    match (e1, e2)
    case (Variable(_, _), Variable(_, _)) =>
    case (Literal(_), Literal(_)) =>
    case (Binary(_, l1, r1), Binary(_, l2, r2)) =>
      EvalIgnoresNames(l1, l2);
      EvalIgnoresNames(r1, r2);
    case (Negate(a1), Negate(a2)) =>
      EvalIgnoresNames(a1, a2);
  }

  /** Nested operands are not parenthesised, so the text of `a - (b - c)` is the
      same as that of `(a - b) - c` although their values differ. */
  lemma RenderDropsGrouping()
    ensures var a, b, c := Variable("a", Number(0.0)), Variable("b", Number(0.0)), Variable("c", Number(1.0));
      var right := Binary(Sub, a, Binary(Sub, b, c));
      var left := Binary(Sub, Binary(Sub, a, b), c);
      Render(right) == Render(left) == "a - b - c" && Eval(right) == Some(1.0) && Eval(left) == Some(-1.0)
  {
  }

  /** No variable name in `e` uses the character `c`. */
  predicate NamesAvoid(e: Expr, c: char) {
    match e
    case Variable(name, _) => c !in name
    case Literal(_) => true
    case Binary(_, l, r) => NamesAvoid(l, c) && NamesAvoid(r, c)
    case Negate(e') => NamesAvoid(e', c)
  }

  /** A character that is no numeral character, operator or space appears in the
      text only through a variable name. */
  lemma {:induction false} RenderAvoids(e: Expr, c: char)
    requires NamesAvoid(e, c)
    requires !IsNumeralChar(c) && c !in " +-*/"
    ensures c !in Render(e)
  {
    match e
    case Variable(_, _) =>
    case Literal(_) =>
    case Binary(op, l, r) =>
      RenderAvoids(l, c);
      RenderAvoids(r, c);
      assert c !in OpText(op);
    case Negate(e') =>
      RenderAvoids(e', c);
  }

  /** A statement argument: a literal number, a literal flag, or a bound
      expression shown by its text. */
  datatype Argument = NumberArg(x: real) | FlagArg(b: bool) | ExprArg(e: Expr)

  /** The script text of an argument. */
  function ArgumentText(a: Argument): string {
    match a
    case NumberArg(x) => NumText(x)
    case FlagArg(b) => BoolText(b)
    case ExprArg(e) => Render(e)
  }

  /** A character that is no numeral character, operator or space, and not in
      the text of a flag argument, appears in an argument's text only through a
      variable name. */
  lemma ArgumentAvoids(a: Argument, c: char)
    requires a.ExprArg? ==> NamesAvoid(a.e, c)
    requires a.FlagArg? ==> c !in BoolText(a.b)
    requires !IsNumeralChar(c) && c !in " +-*/"
    ensures c !in ArgumentText(a)
  {
    if a.ExprArg? {
      RenderAvoids(a.e, c);
    }
  }
}
