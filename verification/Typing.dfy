/** The typing rules the parser enforces on the trees it builds, and the same for emitted code. */
module Typing {
  import opened Wrappers
  import opened Ast
  import opened Ir
  import opened Declarations

  /** One type per name: a function's names are flat, whatever blocks they are declared in. */
  type Names = map<string, TType>

  predicate IsNumber(t: TType) { t == INTEGER || t == FLOAT }

  /** What the parser checks.  It checks neither the number nor the types of a call's arguments, and
      the operands of `==` and `!=` not at all. */
  predicate TypedExpr(p: Program, names: Names, e: Expr)
    decreases e
  {
    match e
    case Var(x, t) => x in names && names[x] == t && t != UNDEFINED
    case BoolLit(_) => true
    case IntLit(_) => true
    case FloatLit(_) => true
    case Unary(op, sub) =>
      TypedExpr(p, names, sub) && if op.Not? then sub.Type() == BOOL else IsNumber(sub.Type())
    case Binary(t, op, l, r) =>
      && TypedExpr(p, names, l) && TypedExpr(p, names, r)
      && (op.IsArithmetic() ==>
            IsNumber(l.Type()) && IsNumber(r.Type()) && t == if IsFloatOp(l, r) then FLOAT else INTEGER)
      && (op.Gt? || op.Lt? || op.Ge? || op.Le? ==> IsNumber(l.Type()) && IsNumber(r.Type()) && t == BOOL)
      && (op.Eq? || op.Ne? ==> t == BOOL)
      && (op.And? || op.Or? ==> l.Type() == r.Type() == t == BOOL)
    case Call(f, args, t) =>
      && t != UNDEFINED
      && (forall i :: 0 <= i < |args| ==> TypedExpr(p, names, args[i]))
      && var i := FindFunction(p, f); i.Some? && p[i.value].ty == t
  }

  predicate TypedStmt(p: Program, names: Names, s: Stmt)
    decreases s
  {
    match s
    case Assign(x, t, rhs) =>
      && x in names && names[x] == t && t != UNDEFINED && TypedExpr(p, names, rhs)
      && (t == BOOL <==> rhs.Type() == BOOL)
    case Print(e) => TypedExpr(p, names, e)
    case Return(e) => TypedExpr(p, names, e)
    case CallStmt(e) => TypedExpr(p, names, e)
    case Block(ss) => forall i :: 0 <= i < |ss| ==> TypedStmt(p, names, ss[i])
    case If(c, thn, els) =>
      && TypedExpr(p, names, c) && c.Type() == BOOL
      && TypedStmt(p, names, thn) && (els.Some? ==> TypedStmt(p, names, els.value))
    case While(c, body) => TypedExpr(p, names, c) && c.Type() == BOOL && TypedStmt(p, names, body)
    case DoWhile(body, c) => TypedExpr(p, names, c) && c.Type() == BOOL && TypedStmt(p, names, body)
  }

  predicate TypedBody(p: Program, names: Names, d: FunctionDef) {
    && TypedStmt(p, names, d.body) && d.ty != UNDEFINED
    && Includes(names, LastTypes(d.params)) && forall i :: 0 <= i < |d.params| ==> d.params[i].ty != UNDEFINED
  }

  /** The types of the parameters; of several with one name the last counts. */
  function LastTypes(ps: seq<Param>): Names {
    if ps == [] then map[] else LastTypes(ps[..|ps| - 1])[ps[|ps| - 1].name := ps[|ps| - 1].ty]
  }

  predicate Includes(names: Names, some: Names) {
    forall x :: x in some ==> x in names && names[x] == some[x]
  }

  ghost predicate Typable(p: Program, d: FunctionDef) {
    exists names :: TypedBody(p, names, d)
  }

  ghost predicate TypedProgram(p: Program) {
    forall i :: 0 <= i < |p| ==> Typable(p, p[i])
  }

  // ----- comparisons of a bool with an int -----

  /** `==` and `!=` are not checked.  A bool compared with a float is converted; one compared with
      an int is not. */
  predicate Comparable(l: TType, r: TType) {
    !(l == BOOL && r == INTEGER) && !(l == INTEGER && r == BOOL)
  }

  predicate Unmixed(e: Expr)
    decreases e
  {
    match e
    case Unary(_, sub) => Unmixed(sub)
    case Binary(_, op, l, r) =>
      Unmixed(l) && Unmixed(r) && (op.Eq? || op.Ne? ==> Comparable(l.Type(), r.Type()))
    case Call(_, args, _) => UnmixedAll(args)
    case _ => true
  }

  predicate UnmixedAll(es: seq<Expr>)
    decreases es
  {
    es == [] || (Unmixed(es[0]) && UnmixedAll(es[1..]))
  }

  /** No comparison for which code is generated mixes a bool with an int. */
  predicate UnmixedStmt(s: Stmt)
    decreases s
  {
    match s
    case Assign(_, _, e) => Unmixed(e)
    case Print(e) => Unmixed(e)
    case Return(e) => Unmixed(e)
    case CallStmt(_) => true
    case Block(ss) => UnmixedSeq(ss)
    case If(c, thn, els) => Unmixed(c) && UnmixedStmt(thn) && (els.Some? ==> UnmixedStmt(els.value))
    case While(c, body) => Unmixed(c) && UnmixedStmt(body)
    case DoWhile(body, c) => UnmixedStmt(body) && (Ends(body) || Unmixed(c))
  }

  predicate UnmixedSeq(ss: seq<Stmt>)
    decreases ss
  {
    ss == [] || (UnmixedStmt(ss[0]) && (Ends(ss[0]) || UnmixedSeq(ss[1..])))
  }

  predicate UnmixedProgram(p: Program) {
    forall i :: 0 <= i < |p| ==> UnmixedStmt(p[i].body)
  }

  lemma TypedHasType(p: Program, names: Names, e: Expr)
    requires TypedExpr(p, names, e)
    ensures e.Type() != UNDEFINED
  {
  }

  // ----- emitted code -----

  predicate IsData(t: LType) { t == I1 || t == I32T || t == F32T }

  /** The type of an operand in a function with these parameters. */
  function TypeOf(c: Code, params: seq<LType>, op: Operand): Option<LType> {
    match op
    case CBool(_) => Some(I1)
    case CInt(_) => Some(I32T)
    case CFloat(_) => Some(F32T)
    case Reg(r) => if r < |c.regs| then Some(c.regs[r]) else None
    case Arg(i) => if i < |params| then Some(params[i]) else None
  }

  predicate Defines(c: Code, dst: nat, t: LType) {
    dst < |c.regs| && c.regs[dst] == t
  }

  /** Operand and result types of a binary instruction. */
  predicate TypedOp2(op: BinInstr, t: LType, result: LType) {
    match op
    case AddI => t == I32T && result == I32T
    case SubI => t == I32T && result == I32T
    case MulI => t == I32T && result == I32T
    case UDivI => t == I32T && result == I32T
    case FAddI => t == F32T && result == F32T
    case FSubI => t == F32T && result == F32T
    case FMulI => t == F32T && result == F32T
    case FDivI => t == F32T && result == F32T
    case ICmpEq => (t == I32T || t == I1) && result == I1
    case ICmpNe => (t == I32T || t == I1) && result == I1
    case ICmpSgt => t == I32T && result == I1
    case ICmpSlt => t == I32T && result == I1
    case ICmpSge => t == I32T && result == I1
    case ICmpSle => t == I32T && result == I1
    case _ => t == F32T && result == I1
  }

  predicate TypedOp1(op: UnInstr, t: LType, result: LType) {
    match op
    case NegI => t == I32T && result == I32T
    case NegF => t == F32T && result == F32T
    case NotI => t == I1 && result == I1
    case ZExtI => t == I1 && result == I32T
    case CastTo(to) => IsData(t) && IsData(to) && t != to && result == to
  }

  /** The operand types an instruction of a function with this signature must have. */
  predicate TypedInstr(c: Code, params: seq<LType>, ret: LType, i: Instr) {
    match i
    case Alloca(dst, t) => IsData(t) && Defines(c, dst, PtrTo(t))
    case Load(dst, t, ptr) => Defines(c, ptr, PtrTo(t)) && Defines(c, dst, t)
    case Store(v, ptr) =>
      TypeOf(c, params, v).Some? && Defines(c, ptr, PtrTo(TypeOf(c, params, v).value))
    case Op1(dst, op, a) =>
      TypeOf(c, params, a).Some? && dst < |c.regs| && TypedOp1(op, TypeOf(c, params, a).value, c.regs[dst])
    case Op2(dst, op, a, b) =>
      && TypeOf(c, params, a).Some? && TypeOf(c, params, a) == TypeOf(c, params, b)
      && dst < |c.regs| && TypedOp2(op, TypeOf(c, params, a).value, c.regs[dst])
    case CallFn(dst, fn, args) =>
      && fn < |c.fns| && |args| == |c.fns[fn].params| && Defines(c, dst, c.fns[fn].ret) && IsData(c.fns[fn].ret)
      && forall k :: 0 <= k < |args| ==> TypeOf(c, params, args[k]) == Some(c.fns[fn].params[k]) && IsData(c.fns[fn].params[k])
    case FPExt(dst, a) => TypeOf(c, params, a) == Some(F32T) && Defines(c, dst, F64T)
    case PrintI32(a) => TypeOf(c, params, a) == Some(I32T)
    case PrintF64(r) => Defines(c, r, F64T)
    case Br(_) => true
    case CondBr(b, _, _) => TypeOf(c, params, b) == Some(I1)
    case Ret(a) => TypeOf(c, params, a) == Some(ret) && IsData(ret)
    case Unreachable => true
  }

  predicate TypedBlock(c: Code, l: nat)
    requires l < |c.blocks|
  {
    var b := c.blocks[l];
    && b.parent.Some? && b.parent.value < |c.fns|
    && forall k :: 0 <= k < |b.code| ==>
         TypedInstr(c, c.fns[b.parent.value].params, c.fns[b.parent.value].ret, b.code[k])
  }

  predicate TypedCode(c: Code) {
    forall l :: 0 <= l < |c.blocks| ==> TypedBlock(c, l)
  }
}
