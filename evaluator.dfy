/** The tree-walking evaluator: integer binary operators, and blocks that run their
    statements in order until one of them yields a value. */
module Evaluator {
  import opened Wrappers
  import opened Primitives

  // ---------------------------------------------------------------------------
  // The syntax tree (source positions and type annotations dropped)

  datatype PrefixOp = Not | Neg

  datatype BinaryOp =
    | Plus | Minus | Multiply | Divide | Modulo
    | Equal | NotEqual | LessThan | GreaterThan | LessEqual | GreaterEqual
    | And | Or

  datatype LiteralValue =
    | Integer(integer: i64)
    | String(text: string)
    | Char(character: char)
    | Bool(boolean: bool)

  datatype Expression =
    | Binary(left: Expression, op: BinaryOp, right: Expression)
    | Unary(prefix: PrefixOp, operand: Expression)
    | Literal(value: LiteralValue)
    | Variable(name: string)
    | Call(callee: Expression, arguments: seq<Expression>)
    | Assign(target: Expression, newValue: Expression)

  datatype Statement =
    | Block(statements: seq<Statement>)
    | If(condition: Expression, thenBranch: Statement, elseBranch: Option<Statement>)
    | While(condition: Expression, body: Statement)
    | For(init: Option<Statement>, condition: Expression, increment: Option<Statement>, body: Statement)
    | Return(result: Option<Expression>)
    | ExpressionStatement(expression: Expression)
    | VariableDeclaration(variable: string, initializer: Option<Expression>)

  // ---------------------------------------------------------------------------
  // Integer arithmetic as Rust does it on i64

  function Abs(x: int): nat {
    if x < 0 then -x else x
  }

  predicate InI64(x: int) {
    I64_MIN <= x <= I64_MAX
  }

  /** Rust's `/` on integers: the quotient rounded toward zero. */
  function TruncDiv(l: int, r: int): int
    requires r != 0
  {
    var q := Abs(l) / Abs(r);
    if (l < 0) == (r < 0) then q else -q
  }

  // Single steps of integer multiplication, so that the proofs below stay linear.

  lemma MulNegLeft(x: int, y: int)
    ensures (-x) * y == -(x * y)
  {
  }

  lemma MulNegRight(x: int, y: int)
    ensures x * (-y) == -(x * y)
  {
  }

  lemma MulSub(x: int, y: int, z: int)
    ensures (x - y) * z == x * z - y * z
  {
  }

  lemma MulAtLeast(x: int, y: int)
    requires x >= 1 && y >= 0
    ensures x * y >= y
  {
    assert x * y == (x - 1) * y + y;
  }

  lemma DivMod(a: int, b: int)
    requires a >= 0 && b > 0
    ensures a == (a / b) * b + a % b && 0 <= a % b < b
  {
  }

  /** A remainder of `l` by `r` as Rust leaves it: smaller than `r` in absolute value,
      and zero or of the sign of `l`. */
  predicate TruncRemainder(l: int, r: int, rem: int) {
    Abs(rem) < Abs(r) && (rem == 0 || (rem < 0 <==> l < 0))
  }

  /** The truncated quotient leaves such a remainder. */
  lemma TruncDivRemainder(l: int, r: int)
    requires r != 0
    ensures TruncRemainder(l, r, l - TruncDiv(l, r) * r)
  {
    var a: int, b: int := Abs(l), Abs(r);
    var m, k := a / b, a % b;
    DivMod(a, b);
    var t := TruncDiv(l, r);
    if l < 0 && r < 0 {
      MulNegRight(m, b);
      assert t * r == -(m * b);
      assert l - t * r == -k;
    } else if l < 0 {
      MulNegLeft(m, b);
      assert t * r == -(m * b);
      assert l - t * r == -k;
    } else if r < 0 {
      MulNegLeft(m, -b);
      MulNegRight(m, b);
      assert t * r == m * b;
      assert l - t * r == k;
    } else {
      assert l - t * r == k;
    }
  }

  /** A nonzero multiple of `r` is at least as large as `r`. */
  lemma AbsProduct(d: int, r: int)
    requires d != 0
    ensures Abs(d * r) >= Abs(r)
  {
    var x: int, y: int := Abs(d), Abs(r);
    MulAtLeast(x, y);
    if d < 0 && r < 0 {
      MulNegLeft(x, -y);
      MulNegRight(x, y);
      assert d * r == x * y;
    } else if d < 0 {
      MulNegLeft(x, y);
      assert d * r == -(x * y);
    } else if r < 0 {
      MulNegRight(x, y);
      assert d * r == -(x * y);
    } else {
      assert d * r == x * y;
    }
  }

  /** Rust's quotient is the only one that leaves such a remainder. */
  lemma {:induction false} TruncDivUnique(l: int, r: int, q: int)
    requires r != 0 && TruncRemainder(l, r, l - q * r)
    ensures q == TruncDiv(l, r)
  {
    var t := TruncDiv(l, r);
    TruncDivRemainder(l, r);
    if q != t {
      MulSub(q, t, r);
      AbsProduct(q - t, r);
    }
  }

  /** The operators `visit_binary` gives a meaning to on two integers. */
  predicate IsIntegerOperator(op: BinaryOp) {
    op.Plus? || op.Minus? || op.Multiply? || op.Divide? || op.GreaterThan?
  }

  /** The operand values for which `visit_binary` panics: i64 overflow, or division
      by zero. */
  predicate Panics(op: BinaryOp, lv: Option<LiteralValue>, rv: Option<LiteralValue>) {
    && lv.Some? && lv.value.Integer? && rv.Some? && rv.value.Integer?
    && var l, r := lv.value.integer as int, rv.value.integer as int;
       match op
       case Plus => !InI64(l + r)
       case Minus => !InI64(l - r)
       case Multiply => !InI64(l * r)
       case Divide => r == 0 || !InI64(TruncDiv(l, r))
       case _ => false
  }

  /** The `match` of `visit_binary` on the two operand values. */
  function ApplyBinary(op: BinaryOp, lv: Option<LiteralValue>, rv: Option<LiteralValue>): (v: Option<LiteralValue>)
    requires !Panics(op, lv, rv)
    ensures v.Some? <==> lv.Some? && lv.value.Integer? && rv.Some? && rv.value.Integer? && IsIntegerOperator(op)
    ensures v.Some? ==> (v.value.Bool? <==> op.GreaterThan?) && (v.value.Integer? <==> !op.GreaterThan?)
    ensures v.Some? ==>
              var l, r := lv.value.integer as int, rv.value.integer as int;
              && (op.Plus? ==> v.value.integer as int == l + r)
              && (op.Minus? ==> v.value.integer as int == l - r)
              && (op.Multiply? ==> v.value.integer as int == l * r)
              && (op.GreaterThan? ==> v.value.boolean == (l > r))
    ensures v.Some? && op.Divide? ==>
              var l, r, q := lv.value.integer as int, rv.value.integer as int, v.value.integer as int;
              r != 0 && TruncRemainder(l, r, l - q * r)
  {
    if lv.Some? && lv.value.Integer? && rv.Some? && rv.value.Integer? then
      var l, r := lv.value.integer as int, rv.value.integer as int;
      match op
      case Plus => Some(Integer((l + r) as i64))
      case Minus => Some(Integer((l - r) as i64))
      case Multiply => Some(Integer((l * r) as i64))
      case Divide =>
        TruncDivRemainder(l, r);
        Some(Integer(TruncDiv(l, r) as i64))
      case GreaterThan => Some(Bool(l > r))
      case _ => None
    else None
  }

  // ---------------------------------------------------------------------------
  // Expressions
  //
  // The evaluator's own state is a type parameter `S`. The source defines only the
  // binary case of `visit_expr`; every other kind of expression goes to `leaf`, which
  // returns a value and the evaluator's new state.

  /** No `visit_binary` reached while evaluating `e` from state `st` panics. */
  predicate PanicFree<S>(e: Expression, st: S, leaf: (Expression, S) -> (Option<LiteralValue>, S))
    decreases e, 0
  {
    match e
    case Binary(left, op, right) =>
      && PanicFree(left, st, leaf)
      && var (lv, st1) := VisitExpr(left, st, leaf);
         && PanicFree(right, st1, leaf)
         && var (rv, _) := VisitExpr(right, st1, leaf);
            !Panics(op, lv, rv)
    case _ => true
  }

  /** `visit_binary`: the left operand, then the right, then the operator. */
  function VisitBinary<S>(left: Expression, op: BinaryOp, right: Expression, st: S,
                          leaf: (Expression, S) -> (Option<LiteralValue>, S)): (Option<LiteralValue>, S)
    requires PanicFree(Binary(left, op, right), st, leaf)
    decreases Binary(left, op, right), 1
  {
    var (lv, st1) := VisitExpr(left, st, leaf);
    var (rv, st2) := VisitExpr(right, st1, leaf);
    (ApplyBinary(op, lv, rv), st2)
  }

  /** `visit_expr`: the routing from each kind of expression to its visitor. Anything
      but a binary expression is handed to its visitor once, from the current state; a
      binary expression never yields a string or a character. */
  function VisitExpr<S>(e: Expression, st: S, leaf: (Expression, S) -> (Option<LiteralValue>, S)): (r: (Option<LiteralValue>, S))
    requires PanicFree(e, st, leaf)
    ensures !e.Binary? ==> r == leaf(e, st)
    ensures e.Binary? && r.0.Some? ==> r.0.value.Integer? || r.0.value.Bool?
    decreases e, 2
  {
    match e
    case Binary(left, op, right) => VisitBinary(left, op, right, st, leaf)
    case _ => leaf(e, st)
  }

  /** The expressions handed to `leaf`, left to right. */
  function Leaves(e: Expression): seq<Expression> {
    match e
    case Binary(left, _, right) => Leaves(left) + Leaves(right)
    case _ => [e]
  }

  /** Evaluation order: when `leaf` records each expression it is given, evaluating `e`
      records its leaves from left to right, so the whole left operand is evaluated
      before any of the right one. */
  lemma {:induction false} LeftBeforeRight(e: Expression, log: seq<Expression>,
                                           leaf: (Expression, seq<Expression>) -> (Option<LiteralValue>, seq<Expression>))
    requires forall x, st :: leaf(x, st).1 == st + [x]
    requires PanicFree(e, log, leaf)
    ensures VisitExpr(e, log, leaf).1 == log + Leaves(e)
  {
    match e
    case Binary(left, op, right) =>
      LeftBeforeRight(left, log, leaf);
      var log1 := VisitExpr(left, log, leaf).1;
      LeftBeforeRight(right, log1, leaf);
    case _ =>
  }

  /** What evaluating a binary expression gives: the right operand is evaluated from
      the state the left one left, and the state it leaves is the final one. The value
      is an integer when both operands are integers and the operator is arithmetic, a
      boolean for `>`, and `None` for any other operator or operand. */
  lemma BinaryMeaning<S>(left: Expression, op: BinaryOp, right: Expression, st: S,
                         leaf: (Expression, S) -> (Option<LiteralValue>, S))
    requires PanicFree(Binary(left, op, right), st, leaf)
    ensures var (lv, st1) := VisitExpr(left, st, leaf);
            var (rv, st2) := VisitExpr(right, st1, leaf);
            var r := VisitExpr(Binary(left, op, right), st, leaf);
            && r.1 == st2
            && (r.0.Some? <==> lv.Some? && lv.value.Integer? && rv.Some? && rv.value.Integer? && IsIntegerOperator(op))
            && (r.0.Some? ==>
                  var l, n := lv.value.integer as int, rv.value.integer as int;
                  && (op.Plus? ==> r.0.value.Integer? && r.0.value.integer as int == l + n)
                  && (op.Minus? ==> r.0.value.Integer? && r.0.value.integer as int == l - n)
                  && (op.Multiply? ==> r.0.value.Integer? && r.0.value.integer as int == l * n)
                  && (op.Divide? ==> n != 0 && r.0.value.Integer? && r.0.value.integer as int == TruncDiv(l, n))
                  && (op.GreaterThan? ==> r.0.value == Bool(l > n)))
  {
  }

  // ---------------------------------------------------------------------------
  // Statements
  //
  // The source defines only `visit_block`; every other kind of statement goes to `other`.

  /** `visit_stmt`: a block runs its statements; anything else goes to `other`, once,
      from the current state. An empty block yields nothing and changes nothing, and a
      block of one statement behaves as that statement. */
  function VisitStmt<S>(s: Statement, st: S, other: (Statement, S) -> (Option<LiteralValue>, S)): (r: (Option<LiteralValue>, S))
    ensures !s.Block? ==> r == other(s, st)
    ensures s == Block([]) ==> r == (None, st)
    ensures s.Block? && |s.statements| == 1 ==> r == VisitStmt(s.statements[0], st, other)
    decreases s
  {
    match s
    case Block(statements) =>
      assert |statements| == 1 ==>
               RunBlock(statements[1..], VisitStmt(statements[0], st, other).1, other).0.None?;
      RunBlock(statements, st, other)
    case _ => other(s, st)
  }

  /** What `visit_block` computes: each statement in turn, from the state the previous
      one left, stopping at the first that yields a value. */
  function RunBlock<S>(statements: seq<Statement>, st: S, other: (Statement, S) -> (Option<LiteralValue>, S)): (Option<LiteralValue>, S)
    decreases statements
  {
    if statements == [] then (None, st)
    else
      var (r, st1) := VisitStmt(statements[0], st, other);
      if r.Some? then (r, st1) else RunBlock(statements[1..], st1, other)
  }

  /** Running `first + rest` is running `first` and, only if it yields nothing, `rest`
      from where it stopped: once a statement yields a value, no later statement runs. */
  lemma {:induction false} RunBlockAppend<S>(first: seq<Statement>, rest: seq<Statement>, st: S,
                                             other: (Statement, S) -> (Option<LiteralValue>, S))
    ensures var (r, st1) := RunBlock(first, st, other);
            RunBlock(first + rest, st, other) == if r.Some? then (r, st1) else RunBlock(rest, st1, other)
    decreases first
  {
    if first == [] {
      assert first + rest == rest;
    } else {
      assert (first + rest)[0] == first[0];
      assert (first + rest)[1..] == first[1..] + rest;
      var (r0, st0) := VisitStmt(first[0], st, other);
      if r0.None? {
        RunBlockAppend(first[1..], rest, st0, other);
      }
    }
  }

  /** The first statement that yields a value decides the block's result and final
      state, whatever follows it. */
  lemma FirstValueWins<S>(statements: seq<Statement>, k: nat, st: S,
                          other: (Statement, S) -> (Option<LiteralValue>, S))
    requires k < |statements|
    requires RunBlock(statements[..k], st, other).0.None?
    requires VisitStmt(statements[k], RunBlock(statements[..k], st, other).1, other).0.Some?
    ensures RunBlock(statements, st, other)
         == VisitStmt(statements[k], RunBlock(statements[..k], st, other).1, other)
  {
    var stk := RunBlock(statements[..k], st, other).1;
    assert statements == statements[..k] + statements[k..];
    RunBlockAppend(statements[..k], statements[k..], st, other);
    assert statements[k..][0] == statements[k];
  }

  /** A block yields `None` exactly when every statement, run in turn, yields `None`;
      in particular an empty block yields `None`. */
  lemma {:induction false} NoneWhenAllNone<S>(statements: seq<Statement>, st: S,
                                              other: (Statement, S) -> (Option<LiteralValue>, S))
    ensures RunBlock(statements, st, other).0.None? <==>
              forall k :: 0 <= k < |statements| ==>
                VisitStmt(statements[k], RunBlock(statements[..k], st, other).1, other).0.None?
    decreases statements
  {
    if statements != [] {
      var (r0, st0) := VisitStmt(statements[0], st, other);
      assert statements[..0] == [];
      if r0.None? {
        NoneWhenAllNone(statements[1..], st0, other);
        forall k | 1 <= k < |statements|
          ensures RunBlock(statements[..k], st, other) == RunBlock(statements[1..][..k - 1], st0, other)
        {
          assert statements[..k][0] == statements[0];
          assert statements[..k][1..] == statements[1..][..k - 1];
        }
        forall k | 1 <= k < |statements|
          ensures statements[k] == statements[1..][k - 1]
        {
        }
      }
    }
  }

  /** `visit_block`: runs the statements in order and returns at the first value. */
  method VisitBlock<S>(statements: seq<Statement>, st: S, other: (Statement, S) -> (Option<LiteralValue>, S))
    returns (result: Option<LiteralValue>, st': S)
    ensures (result, st') == RunBlock(statements, st, other)
  {
    result := None;
    st' := st;
    for i := 0 to |statements|
      invariant result.None?
      invariant RunBlock(statements[i..], st', other) == RunBlock(statements, st, other)
    {
      assert statements[i..][0] == statements[i] && statements[i..][1..] == statements[i + 1..];
      var (r, s) := VisitStmt(statements[i], st', other);
      result, st' := r, s;
      if result.Some? {
        return;
      }
    }
  }
}
