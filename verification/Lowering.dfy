/** The translation from trees to basic blocks, as functions on the generator's state.

    This is the specification the visitor in `Codegen` is proved against.  It has no operand
    stack: a visited expression simply yields its operand. */
module Lowering {
  import opened Wrappers
  import opened Ast
  import opened Ir

  type Scope = map<string, nat>

  /** `insert` is the block the builder appends to; `scopes` is innermost last; `ok` is cleared by
      the first error and never set again. */
  datatype Gen = Gen(
    code: Code,
    insert: nat,
    scopes: seq<Scope>,
    funcs: map<string, nat>,
    cur: nat,
    ok: bool)

  /** The operand an expression leaves, if it leaves one. */
  datatype Lowered = Lowered(g: Gen, operand: Option<Operand>)
  datatype LoweredArgs = LoweredArgs(g: Gen, operands: seq<Operand>)

  const EMPTY_GEN := Gen(Code([], [], []), 0, [], map[], 0, true)

  function ToLType(t: TType): LType {
    match t
    case BOOL => I1
    case INTEGER => I32T
    case FLOAT => F32T
    case UNDEFINED => I32T
  }

  function ToLTypes(ps: seq<Param>): seq<LType> {
    seq(|ps|, i requires 0 <= i < |ps| => ToLType(ps[i].ty))
  }

  // ----- the scope stack -----

  function Lookup(scopes: seq<Scope>, x: string): Option<nat> {
    if scopes == [] then None
    else
      var top := scopes[|scopes| - 1];
      if x in top then Some(top[x]) else Lookup(scopes[..|scopes| - 1], x)
  }

  function Declare(scopes: seq<Scope>, x: string, r: nat): seq<Scope> {
    if scopes == [] then [] else scopes[..|scopes| - 1] + [scopes[|scopes| - 1][x := r]]
  }

  function Popped(scopes: seq<Scope>): seq<Scope> {
    if scopes == [] then [] else scopes[..|scopes| - 1]
  }

  // ----- the builder -----

  function InsertBlock(g: Gen): seq<Instr> {
    if g.insert < |g.code.blocks| then g.code.blocks[g.insert].code else []
  }

  function Emit(g: Gen, i: Instr): Gen {
    if g.insert < |g.code.blocks| then
      var b := g.code.blocks[g.insert];
      g.(code := g.code.(blocks := g.code.blocks[g.insert := b.(code := b.code + [i])]))
    else g
  }

  function NextReg(g: Gen): nat { |g.code.regs| }

  /** Emit an instruction that defines the next register, of type `t`. */
  function EmitDef(g: Gen, t: LType, i: Instr): Gen {
    Emit(g.(code := g.code.(regs := g.code.regs + [t])), i)
  }

  function NextLabel(g: Gen): nat { |g.code.blocks| }

  function CreateBlock(g: Gen, parent: Option<nat>): Gen {
    g.(code := g.code.(blocks := g.code.blocks + [BasicBlock([], parent)]))
  }

  /** Attach a detached block to the current function. */
  function Attach(g: Gen, l: nat): Gen {
    if l < |g.code.blocks| then
      g.(code := g.code.(blocks := g.code.blocks[l := g.code.blocks[l].(parent := Some(g.cur))]))
    else g
  }

  function SetInsert(g: Gen, l: nat): Gen { g.(insert := l) }

  function Error(g: Gen): Gen { g.(ok := false) }

  /** Branch to `l` unless the insert block has a terminator already. */
  function BranchIfOpen(g: Gen, l: nat): Gen {
    if Terminated(InsertBlock(g)) then g else Emit(g, Br(l))
  }

  function OperandType(g: Gen, op: Operand): LType {
    match op
    case CBool(_) => I1
    case CInt(_) => I32T
    case CFloat(_) => F32T
    case Reg(r) => if r < |g.code.regs| then g.code.regs[r] else I32T
    case Arg(i) =>
      if g.cur < |g.code.fns| && i < |g.code.fns[g.cur].params| then g.code.fns[g.cur].params[i] else I32T
  }

  /** No instruction if the operand has the wanted type already. */
  function LowerCast(g: Gen, op: Operand, to: LType): (r: Lowered)
    ensures r.operand.Some?
  {
    if OperandType(g, op) == to then Lowered(g, Some(op))
    else Lowered(EmitDef(g, to, Op1(NextReg(g), CastTo(to), op)), Some(Reg(NextReg(g))))
  }

  function SelectOp2(isFloat: bool, op: BinaryOp): BinInstr
    requires op.IsArithmetic() || op.IsRelation()
  {
    match op
    case Add => if isFloat then FAddI else AddI
    case Sub => if isFloat then FSubI else SubI
    case Mul => if isFloat then FMulI else MulI
    case Div => if isFloat then FDivI else UDivI
    case Eq => if isFloat then FCmpOeq else ICmpEq
    case Ne => if isFloat then FCmpOne else ICmpNe
    case Gt => if isFloat then FCmpOgt else ICmpSgt
    case Lt => if isFloat then FCmpOlt else ICmpSlt
    case Ge => if isFloat then FCmpOge else ICmpSge
    case Le => if isFloat then FCmpOle else ICmpSle
  }

  function ResultType(isFloat: bool, op: BinaryOp): LType {
    if op.IsRelation() then I1 else if isFloat then F32T else I32T
  }

  // ----- expressions -----

  function LowerExpr(g: Gen, e: Expr): Lowered
    decreases e
  {
    match e
    case Var(x, t) =>
      (match Lookup(g.scopes, x)
       case None => Lowered(Error(g), None)
       case Some(r) =>
         Lowered(EmitDef(g, ToLType(t), Load(NextReg(g), ToLType(t), r)), Some(Reg(NextReg(g)))))
    case BoolLit(b) => Lowered(g, Some(CBool(b)))
    case IntLit(n) => Lowered(g, Some(CInt(n)))
    case FloatLit(f) => Lowered(g, Some(CFloat(f)))
    case Binary(_, op, l, r) =>
      var g1 := LowerExpr(g, l);
      if !g1.g.ok || g1.operand.None? then g1.(operand := None)
      else if op.And? || op.Or? then
        var g2 := StartShortCircuit(g1.g, op, g1.operand.value);
        var g3 := LowerExpr(g2, r);
        if !g3.g.ok || g3.operand.None? then g3.(operand := None)
        else EndShortCircuit(g3.g, NextReg(g1.g), NextLabel(g1.g) + 1, g3.operand.value)
      else
        var g2 := LowerExpr(g1.g, r);
        if !g2.g.ok || g2.operand.None? then g2.(operand := None)
        else LowerStrict(g2.g, IsFloatOp(l, r), op, g1.operand.value, g2.operand.value)
    case Unary(op, sub) =>
      var g1 := LowerExpr(g, sub);
      if op.Pos? then g1
      else if !g1.g.ok || g1.operand.None? then g1.(operand := None)
      else LowerMonadic(g1.g, op, sub.Type(), g1.operand.value)
    case Call(f, args, _) =>
      if f !in g.funcs || g.funcs[f] >= |g.code.fns| then Lowered(Error(g), None)
      else
        var fn := g.code.fns[g.funcs[f]];
        if |args| != |fn.params| then Lowered(Error(g), None)
        else
          var g1 := LowerArgs(g, args, fn.params);
          if args != [] && !g1.g.ok then Lowered(g1.g, None)
          else Lowered(EmitDef(g1.g, fn.ret, CallFn(NextReg(g1.g), g.funcs[f], g1.operands)), Some(Reg(NextReg(g1.g))))
  }

  function LowerStrict(g: Gen, isFloat: bool, op: BinaryOp, l: Operand, r: Operand): Lowered
    requires op.IsArithmetic() || op.IsRelation()
  {
    var l1 := if isFloat then LowerCast(g, l, F32T) else Lowered(g, Some(l));
    var r1 := if isFloat then LowerCast(l1.g, r, F32T) else Lowered(l1.g, Some(r));
    Lowered(
      EmitDef(r1.g, ResultType(isFloat, op),
              Op2(NextReg(r1.g), SelectOp2(isFloat, op), l1.operand.value, r1.operand.value)),
      Some(Reg(NextReg(r1.g))))
  }

  function LowerMonadic(g: Gen, op: UnaryOp, t: TType, v: Operand): Lowered
    requires !op.Pos?
  {
    if op.Not? then Lowered(EmitDef(g, I1, Op1(NextReg(g), NotI, v)), Some(Reg(NextReg(g))))
    else if t == FLOAT then Lowered(EmitDef(g, F32T, Op1(NextReg(g), NegF, v)), Some(Reg(NextReg(g))))
    else if t == INTEGER then Lowered(EmitDef(g, I32T, Op1(NextReg(g), NegI, v)), Some(Reg(NextReg(g))))
    else Lowered(Error(g), None)
  }

  /** Save the left side in a fresh cell and branch on it.  The right side's block is created
      first and attached; the merge block is created second and left detached. */
  function StartShortCircuit(g: Gen, op: BinaryOp, v: Operand): Gen {
    var slot, rhs, merge := NextReg(g), NextLabel(g), NextLabel(g) + 1;
    var g1 := Emit(EmitDef(g, PtrTo(I1), Alloca(slot, I1)), Store(v, slot));
    var g2 := CreateBlock(CreateBlock(g1, Some(g.cur)), None);
    SetInsert(Emit(g2, if op.And? then CondBr(v, rhs, merge) else CondBr(v, merge, rhs)), rhs)
  }

  function EndShortCircuit(g: Gen, slot: nat, merge: nat, v: Operand): Lowered {
    var g1 := Emit(Emit(g, Store(v, slot)), Br(merge));
    var g2 := SetInsert(Attach(g1, merge), merge);
    Lowered(EmitDef(g2, I1, Load(NextReg(g2), I1, slot)), Some(Reg(NextReg(g2))))
  }

  function LowerArgs(g: Gen, args: seq<Expr>, params: seq<LType>): LoweredArgs
    requires |args| == |params|
    decreases args
  {
    if args == [] then LoweredArgs(g, [])
    else
      var g1 := LowerExpr(g, args[0]);
      if !g1.g.ok || g1.operand.None? then LoweredArgs(g1.g, [])
      else
        var g2 := LowerCast(g1.g, g1.operand.value, params[0]);
        var g3 := LowerArgs(g2.g, args[1..], params[1..]);
        LoweredArgs(g3.g, [g2.operand.value] + g3.operands)
  }

  // ----- statements -----

  function LowerStmt(g: Gen, s: Stmt): Gen
    decreases s
  {
    match s
    case Assign(x, t, rhs) =>
      var g1 := LowerExpr(g, rhs);
      if !g1.g.ok || g1.operand.None? then g1.g
      else LowerAssign(g1.g, x, t, rhs.Type(), g1.operand.value)
    case Print(e) =>
      var g1 := LowerExpr(g, e);
      if !g1.g.ok || g1.operand.None? then g1.g else LowerPrint(g1.g, e.Type(), g1.operand.value)
    case Return(e) =>
      var g1 := LowerExpr(g, e);
      if !g1.g.ok || g1.operand.None? then g1.g else LowerReturn(g1.g, g1.operand.value)
    case CallStmt(_) => g
    case Block(ss) =>
      var g1 := LowerSeq(g.(scopes := g.scopes + [map[]]), ss);
      g1.(scopes := Popped(g1.scopes))
    case If(c, thn, els) =>
      var g1 := LowerExpr(g, c);
      if !g1.g.ok || g1.operand.None? then g1.g
      else
        var then_ := NextLabel(g1.g);
        var else_, merge := then_ + 1, then_ + 2;
        var g2 := StartIf(g1.g, g1.operand.value);
        var g3 := LowerStmt(g2, thn);
        if !g3.ok then g3
        else
          var g4 := SetInsert(Attach(BranchIfOpen(g3, merge), else_), else_);
          var g5 := if els.Some? then LowerStmt(g4, els.value) else g4;
          if !g5.ok then g5
          else SetInsert(Attach(BranchIfOpen(g5, merge), merge), merge)
    case While(c, body) =>
      var loop := NextLabel(g);
      var then_, after := loop + 1, loop + 2;
      var g1 := LowerExpr(StartWhile(g), c);
      if !g1.g.ok || g1.operand.None? then g1.g
      else
        var g2 := SetInsert(Emit(g1.g, CondBr(g1.operand.value, then_, after)), then_);
        var g3 := LowerStmt(g2, body);
        if !g3.ok then g3
        else SetInsert(Attach(BranchIfOpen(g3, loop), after), after)
    case DoWhile(body, c) =>
      var loop := NextLabel(g);
      var after := loop + 1;
      var g1 := LowerStmt(StartDoWhile(g), body);
      if !g1.ok then g1
      else if Terminated(InsertBlock(g1)) then SetInsert(Attach(g1, after), after)
      else
        var g2 := LowerExpr(g1, c);
        if !g2.g.ok || g2.operand.None? then g2.g
        else SetInsert(Attach(Emit(g2.g, CondBr(g2.operand.value, loop, after)), after), after)
  }

  /** Stops at an error, and after a statement that ended the insert block. */
  function LowerSeq(g: Gen, ss: seq<Stmt>): Gen
    decreases ss
  {
    if ss == [] then g
    else
      var g1 := LowerStmt(g, ss[0]);
      if !g1.ok || Terminated(InsertBlock(g1)) then g1 else LowerSeq(g1, ss[1..])
  }

  /** Conversion of a value about to be stored: only if the two tree types differ. */
  function LowerConversion(g: Gen, v: Operand, from: TType, to: TType): (r: Lowered)
    ensures r.operand.Some?
  {
    if from != to then LowerCast(g, v, ToLType(to)) else Lowered(g, Some(v))
  }

  function LowerAssign(g: Gen, x: string, t: TType, from: TType, v: Operand): Gen {
    match Lookup(g.scopes, x)
    case Some(slot) =>
      var c := LowerConversion(g, v, from, t);
      Emit(c.g, Store(c.operand.value, slot))
    case None =>
      var slot := NextReg(g);
      var g1 := EmitDef(g, PtrTo(ToLType(t)), Alloca(slot, ToLType(t)));
      var c := LowerConversion(g1, v, from, t);
      var g2 := Emit(c.g, Store(c.operand.value, slot));
      g2.(scopes := Declare(g2.scopes, x, slot))
  }

  function LowerPrint(g: Gen, t: TType, v: Operand): Gen {
    if t == FLOAT then
      Emit(EmitDef(g, F64T, FPExt(NextReg(g), v)), PrintF64(NextReg(g)))
    else if t == BOOL then
      Emit(EmitDef(g, I32T, Op1(NextReg(g), ZExtI, v)), PrintI32(Reg(NextReg(g))))
    else
      Emit(g, PrintI32(v))
  }

  function LowerReturn(g: Gen, v: Operand): Gen {
    if g.cur < |g.code.fns| then
      var c := LowerCast(g, v, g.code.fns[g.cur].ret);
      Emit(c.g, Ret(c.operand.value))
    else g
  }

  /** Then is attached, Else and Merge are not. */
  function StartIf(g: Gen, c: Operand): Gen {
    var l := NextLabel(g);
    var g1 := CreateBlock(CreateBlock(CreateBlock(g, Some(g.cur)), None), None);
    SetInsert(Emit(g1, CondBr(c, l, l + 1)), l)
  }

  /** Loop and Then are attached, After is not. */
  function StartWhile(g: Gen): Gen {
    var l := NextLabel(g);
    var g1 := CreateBlock(CreateBlock(CreateBlock(g, Some(g.cur)), Some(g.cur)), None);
    SetInsert(Emit(g1, Br(l)), l)
  }

  function StartDoWhile(g: Gen): Gen {
    var l := NextLabel(g);
    var g1 := CreateBlock(CreateBlock(g, Some(g.cur)), None);
    SetInsert(Emit(g1, Br(l)), l)
  }

  // ----- functions and programs -----

  /** Enter a new function: its record, its scope and its entry block. */
  function StartFunction(g: Gen, d: FunctionDef): Gen {
    var f := |g.code.fns|;
    var fn := Fn(d.name, ToLTypes(d.params), ToLType(d.ty), NextLabel(g));
    var g1 := Gen(g.code.(fns := g.code.fns + [fn]), g.insert, [map[]], g.funcs[d.name := f], f, g.ok);
    SetInsert(CreateBlock(g1, Some(f)), NextLabel(g))
  }

  /** A cell for a parameter, holding the argument. */
  function LowerParam(g: Gen, p: Param, i: nat): Gen {
    var slot, t := NextReg(g), ToLType(p.ty);
    var g2 := Emit(EmitDef(g, PtrTo(t), Alloca(slot, t)), Store(Arg(i), slot));
    g2.(scopes := Declare(g2.scopes, p.name, slot))
  }

  function LowerParams(g: Gen, ps: seq<Param>): Gen {
    if ps == [] then g else LowerParam(LowerParams(g, ps[..|ps| - 1]), ps[|ps| - 1], |ps| - 1)
  }

  function LowerFunction(g: Gen, d: FunctionDef): Gen {
    var g1 := LowerStmt(LowerParams(StartFunction(g, d), d.params), d.body);
    if !g1.ok || Terminated(InsertBlock(g1)) then g1 else Emit(g1, Unreachable)
  }

  function LowerProgram(p: Program): Gen {
    if p == [] then EMPTY_GEN else LowerFunction(LowerProgram(p[..|p| - 1]), p[|p| - 1])
  }
}
