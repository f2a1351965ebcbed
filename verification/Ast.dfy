/** The tree the parser builds.  Each constructor keeps the type its node is given on
    construction; the types that are computed from a child are functions here. */
module Ast {
  import opened Wrappers
  import opened Values

  datatype TType = UNDEFINED | BOOL | INTEGER | FLOAT

  datatype BinaryOp = Add | Sub | Mul | Div | Eq | Ne | Gt | Lt | Ge | Le | And | Or {
    predicate IsArithmetic() { Add? || Sub? || Mul? || Div? }
    predicate IsRelation() { Eq? || Ne? || Gt? || Lt? || Ge? || Le? }
  }

  datatype UnaryOp = Pos | Neg | Not

  datatype Expr =
    | Var(name: string, varTy: TType)
    | Call(callee: string, args: seq<Expr>, retTy: TType)
    | BoolLit(b: bool)
    | IntLit(n: I32)
    | FloatLit(f: F32)
    | Binary(binTy: TType, op: BinaryOp, lhs: Expr, rhs: Expr)
    | Unary(uop: UnaryOp, sub: Expr)
  {
    function Type(): TType {
      match this
      case Var(_, t) => t
      case Call(_, _, t) => t
      case BoolLit(_) => BOOL
      case IntLit(_) => INTEGER
      case FloatLit(_) => FLOAT
      case Binary(t, _, _, _) => t
      case Unary(_, e) => e.Type()
    }
  }

  /** A declaration and an assignment are the same node. */
  datatype Stmt =
    | Assign(name: string, varTy: TType, rhs: Expr)
    | Print(e: Expr)
    | Return(e: Expr)
    | CallStmt(call: Expr)
    | Block(stmts: seq<Stmt>)
    | If(cond: Expr, thn: Stmt, els: Option<Stmt>)
    | While(cond: Expr, body: Stmt)
    | DoWhile(body: Stmt, cond: Expr)

  datatype Param = Param(name: string, ty: TType)

  datatype FunctionDef = FunctionDef(name: string, params: seq<Param>, body: Stmt, ty: TType)

  type Program = seq<FunctionDef>

  /** Does either operand make the operation a floating-point one? */
  predicate IsFloatOp(l: Expr, r: Expr) {
    l.Type() == FLOAT || r.Type() == FLOAT
  }

  function FindFunction(p: Program, name: string): (r: Option<nat>)
    ensures r.Some? ==> r.value < |p| && p[r.value].name == name
    ensures r.None? ==> forall i :: 0 <= i < |p| ==> p[i].name != name
  {
    if p == [] then None
    else if p[|p| - 1].name == name then Some(|p| - 1)
    else FindFunction(p[..|p| - 1], name)
  }

  predicate DistinctNames(p: Program) {
    forall i, j :: 0 <= i < j < |p| ==> p[i].name != p[j].name
  }
}
