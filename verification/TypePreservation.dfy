/** Well-typed trees become well-typed code. */
module TypePreservation {
  import opened Wrappers
  import opened Ast
  import opened Ir
  import opened Lowering
  import opened Shape
  import opened Visits
  import opened Stages
  import opened FlowGraph
  import opened Calls
  import opened Typing
  import opened Declarations

  /** The signature of the function being generated. */
  function Params(g: Gen): seq<LType> {
    if g.cur < |g.code.fns| then g.code.fns[g.cur].params else []
  }

  function Result(g: Gen): LType {
    if g.cur < |g.code.fns| then g.code.fns[g.cur].ret else I32T
  }

  ghost predicate InstrsTyped(g: Gen, code: seq<Instr>) {
    forall k :: 0 <= k < |code| ==> TypedInstr(g.code, Params(g), Result(g), code[k])
  }

  /** The blocks from `lo` on, which belong to the current function, are well typed. */
  ghost predicate CodeTyped(g: Gen, lo: nat) {
    forall l :: lo <= l < |g.code.blocks| ==> InstrsTyped(g, g.code.blocks[l].code)
  }

  /** Every level of the scope stack binds names to cells of the names' types. */
  ghost predicate ScopesTyped(g: Gen, names: Names) {
    forall i, x :: 0 <= i < |g.scopes| && x in g.scopes[i] ==>
      x in names && Defines(g.code, g.scopes[i][x], PtrTo(ToLType(names[x])))
  }

  /** The function being generated: its program, the types of its names, and its first block. */
  datatype Setting = Setting(p: Program, names: Names, lo: nat)

  /** A comparison of operands of two types. */
  predicate MixedInstr(c: Code, i: Instr) {
    && i.Op2? && (i.bin.ICmpEq? || i.bin.ICmpNe?)
    && TypeOf(c, [], i.a).Some? && TypeOf(c, [], i.b).Some? && TypeOf(c, [], i.a) != TypeOf(c, [], i.b)
  }

  ghost predicate MixedAt(c: Code, l: nat, k: nat) {
    l < |c.blocks| && k < |c.blocks[l].code| && MixedInstr(c, c.blocks[l].code[k])
  }

  ghost predicate MixedCode(c: Code) {
    exists l: nat, k: nat :: MixedAt(c, l, k)
  }

  /** All that holds of the generator's state inside a function of `k.p`.  As long as `clean` holds
      the code is well typed; afterwards it has an ill-typed comparison. */
  ghost predicate TypedState(k: Setting, g: Gen, clean: bool) {
    && (if clean then CodeTyped(g, k.lo) else MixedCode(g.code))
    && ScopesTyped(g, k.names) && g.cur < |g.code.fns| && KnowsFunctions(g, k.p)
  }

  ghost predicate HasTypeIn(g: Gen, op: Operand, t: LType) {
    TypeOf(g.code, [], op) == Some(t) && OperandType(g, op) == t
  }

  // ----- code that grows -----

  ghost predicate GrownTypes(g: Gen, h: Gen) {
    g.code.regs <= h.code.regs && h.code.fns == g.code.fns && h.cur == g.cur
  }

  lemma InstrsStayTyped(g: Gen, h: Gen, code: seq<Instr>)
    requires InstrsTyped(g, code) && GrownTypes(g, h)
    ensures InstrsTyped(h, code)
  {
    forall k | 0 <= k < |code| ensures TypedInstr(h.code, Params(h), Result(h), code[k]) {
      var i := code[k];
      assert TypedInstr(g.code, Params(g), Result(g), i);
      if i.CallFn? {
        forall m | 0 <= m < |i.args| ensures TypeOf(h.code, Params(h), i.args[m]) == Some(h.code.fns[i.fn].params[m]) {
          assert TypeOf(g.code, Params(g), i.args[m]) == Some(g.code.fns[i.fn].params[m]);
        }
      }
    }
  }

  lemma TypeStays(g: Gen, h: Gen, op: Operand, t: LType)
    requires HasTypeIn(g, op, t) && GrownTypes(g, h)
    ensures HasTypeIn(h, op, t)
  {
  }

  /** One more instruction, typed in the code as it is after it. */
  lemma EmitTyped(g: Gen, i: Instr, lo: nat)
    requires CodeTyped(g, lo) && TypedInstr(g.code, Params(g), Result(g), i)
    ensures CodeTyped(Emit(g, i), lo)
  {
    var h := Emit(g, i);
    forall l | lo <= l < |h.code.blocks| ensures InstrsTyped(h, h.code.blocks[l].code) {
      InstrsStayTyped(g, h, g.code.blocks[l].code);
      var b := h.code.blocks[l].code;
      forall k | 0 <= k < |b| ensures TypedInstr(h.code, Params(h), Result(h), b[k]) {
        if k < |g.code.blocks[l].code| {
          assert b[k] == g.code.blocks[l].code[k];
        } else {
          InstrsStayTyped(g, h, [i]);
          assert b[k] == [i][0];
        }
      }
    }
  }

  lemma CreateTyped(g: Gen, parent: Option<nat>, lo: nat)
    requires CodeTyped(g, lo)
    ensures CodeTyped(CreateBlock(g, parent), lo)
  {
    var h := CreateBlock(g, parent);
    forall l | lo <= l < |h.code.blocks| ensures InstrsTyped(h, h.code.blocks[l].code) {
      if l < |g.code.blocks| {
        InstrsStayTyped(g, h, g.code.blocks[l].code);
      }
    }
  }

  lemma SwitchTyped(g: Gen, l: nat, lo: nat)
    requires CodeTyped(g, lo)
    ensures CodeTyped(SetInsert(g, l), lo) && CodeTyped(SetInsert(Attach(g, l), l), lo)
  {
    var h := SetInsert(Attach(g, l), l);
    forall k | lo <= k < |h.code.blocks|
      ensures InstrsTyped(h, h.code.blocks[k].code) && InstrsTyped(SetInsert(g, l), g.code.blocks[k].code)
    {
      InstrsStayTyped(g, h, g.code.blocks[k].code);
      InstrsStayTyped(g, SetInsert(g, l), g.code.blocks[k].code);
    }
  }

  /** The result of a visited expression has the type of the tree. */
  ghost predicate ExprTyped(k: Setting, r: Lowered, t: LType, clean: bool) {
    TypedState(k, r.g, clean) && (r.operand.Some? ==> HasTypeIn(r.g, r.operand.value, t))
  }

  ghost predicate Visitable(k: Setting, g: Gen, clean: bool) {
    Ready(g, k.lo) && TypedState(k, g, clean) && DistinctNames(k.p)
  }

  /** Changing neither code nor signature. */
  lemma SameCodeTyped(g: Gen, h: Gen, lo: nat)
    requires CodeTyped(g, lo) && h.code == g.code && h.cur == g.cur
    ensures CodeTyped(h, lo)
  {
    forall l | lo <= l < |h.code.blocks| ensures InstrsTyped(h, h.code.blocks[l].code) {
      InstrsStayTyped(g, h, g.code.blocks[l].code);
    }
  }

  lemma MixedExtends(c: Code, d: Code)
    requires MixedCode(c) && Extends(c, d)
    ensures MixedCode(d)
  {
    var l: nat, k: nat :| MixedAt(c, l, k);
    assert MixedAt(d, l, k);
  }

  lemma MixedIsIllTyped(c: Code)
    requires MixedCode(c)
    ensures !TypedCode(c)
  {
    var l: nat, k: nat :| MixedAt(c, l, k);
    var b := c.blocks[l];
    if b.parent.Some? && b.parent.value < |c.fns| {
      var fn := c.fns[b.parent.value];
      assert !TypedInstr(c, fn.params, fn.ret, b.code[k]);
    }
    assert !TypedBlock(c, l);
  }

  lemma ExtendsByEmit(g: Gen, i: Instr)
    ensures Extends(g.code, Emit(g, i).code)
  {
  }

  // ----- the builder's steps -----

  lemma EmitStays(k: Setting, g: Gen, i: Instr, clean: bool)
    requires TypedState(k, g, clean) && TypedInstr(g.code, Params(g), Result(g), i)
    ensures TypedState(k, Emit(g, i), clean)
  {
    if clean {
      EmitTyped(g, i, k.lo);
    } else {
      ExtendsByEmit(g, i);
      MixedExtends(g.code, Emit(g, i).code);
    }
  }

  lemma RegStays(k: Setting, g: Gen, t: LType, clean: bool)
    requires TypedState(k, g, clean)
    ensures TypedState(k, g.(code := g.code.(regs := g.code.regs + [t])), clean)
  {
    var h := g.(code := g.code.(regs := g.code.regs + [t]));
    if clean {
      forall l | k.lo <= l < |h.code.blocks| ensures InstrsTyped(h, h.code.blocks[l].code) {
        InstrsStayTyped(g, h, g.code.blocks[l].code);
      }
    } else {
      MixedExtends(g.code, h.code);
    }
  }

  lemma CreateStays(k: Setting, g: Gen, parent: Option<nat>, clean: bool)
    requires TypedState(k, g, clean)
    ensures TypedState(k, CreateBlock(g, parent), clean)
  {
    if clean {
      CreateTyped(g, parent, k.lo);
    } else {
      MixedExtends(g.code, CreateBlock(g, parent).code);
    }
  }

  lemma SwitchStays(k: Setting, g: Gen, l: nat, clean: bool)
    requires TypedState(k, g, clean)
    ensures TypedState(k, SetInsert(g, l), clean) && TypedState(k, SetInsert(Attach(g, l), l), clean)
  {
    hide CodeTyped, MixedCode;
    if clean {
      SwitchTyped(g, l, k.lo);
    } else {
      MixedExtends(g.code, Attach(g, l).code);
    }
  }

  lemma DefStays(k: Setting, g: Gen, t: LType, i: Instr, clean: bool)
    requires Visitable(k, g, clean) && !i.IsTerminator()
    requires TypedInstr(g.code.(regs := g.code.regs + [t]), Params(g), Result(g), i)
    ensures Visitable(k, EmitDef(g, t, i), clean) && GrownTypes(g, EmitDef(g, t, i))
    ensures ExprTyped(k, Lowered(EmitDef(g, t, i), Some(Reg(NextReg(g)))), t, clean)
  {
    hide TypedState;
    ShapeDef(g, t, i, k.lo);
    RegStays(k, g, t, clean);
    EmitStays(k, g.(code := g.code.(regs := g.code.regs + [t])), i, clean);
  }

  lemma CastStays(k: Setting, g: Gen, op: Operand, from: LType, to: LType, clean: bool)
    requires Visitable(k, g, clean) && HasTypeIn(g, op, from) && IsData(from) && IsData(to)
    ensures var r := LowerCast(g, op, to);
      Visitable(k, r.g, clean) && GrownTypes(g, r.g) && HasTypeIn(r.g, r.operand.value, to)
  {
    hide TypedState, Ready, EmitDef;
    if from != to {
      DefStays(k, g, to, Op1(NextReg(g), CastTo(to), op), clean);
    }
  }

  // ----- expressions -----

  lemma {:induction false} LookupTyped(g: Gen, names: Names, scopes: seq<Scope>, x: string)
    requires ScopesTyped(g, names) && scopes <= g.scopes && Lookup(scopes, x).Some?
    ensures x in names && Defines(g.code, Lookup(scopes, x).value, PtrTo(ToLType(names[x])))
    decreases scopes
  {
    var i := |scopes| - 1;
    assert scopes[i] == g.scopes[i];
    if x !in scopes[i] {
      LookupTyped(g, names, scopes[..i], x);
    }
  }

  /** The operand types of `+ - * /` and of the comparisons. */
  ghost predicate StrictTypes(op: BinaryOp, l: TType, r: TType) {
    && l != UNDEFINED && r != UNDEFINED && (op.IsArithmetic() || op.IsRelation())
    && (!op.Eq? && !op.Ne? ==> IsNumber(l) && IsNumber(r))
  }

  /** The instruction is well typed unless it compares a bool with an int. */
  lemma StrictStays(k: Setting, g: Gen, op: BinaryOp, l: TType, r: TType, a: Operand, b: Operand, clean: bool)
    requires Visitable(k, g, clean) && StrictTypes(op, l, r)
    requires HasTypeIn(g, a, ToLType(l)) && HasTypeIn(g, b, ToLType(r))
    ensures var isFloat := l == FLOAT || r == FLOAT;
      ExprTyped(k, LowerStrict(g, isFloat, op, a, b), ResultType(isFloat, op),
                clean && (op.Eq? || op.Ne? ==> Comparable(l, r)))
  {
    hide Visitable, GrownTypes, HasTypeIn, LowerCast, EmitDef;
    if l == FLOAT || r == FLOAT {
      var l1 := LowerCast(g, a, F32T);
      var r1 := LowerCast(l1.g, b, F32T);
      CastStays(k, g, a, ToLType(l), F32T, clean);
      TypeStays(g, l1.g, b, ToLType(r));
      CastStays(k, l1.g, b, ToLType(r), F32T, clean);
      TypeStays(l1.g, r1.g, l1.operand.value, F32T);
      Op2Stays(k, r1.g, true, op, F32T, l1.operand.value, r1.operand.value, clean);
    } else if l == r {
      Op2Stays(k, g, false, op, ToLType(l), a, b, clean);
    } else {
      MixedAppears(k, g, op, a, b, clean);
    }
  }

  lemma MixedAppears(k: Setting, g: Gen, op: BinaryOp, a: Operand, b: Operand, clean: bool)
    requires Visitable(k, g, clean) && (op.Eq? || op.Ne?)
    requires (HasTypeIn(g, a, I1) && HasTypeIn(g, b, I32T)) || (HasTypeIn(g, a, I32T) && HasTypeIn(g, b, I1))
    ensures ExprTyped(k, LowerStrict(g, false, op, a, b), I1, false)
  {
    var h := LowerStrict(g, false, op, a, b).g;
    assert MixedAt(h.code, g.insert, |g.code.blocks[g.insert].code|);
  }

  lemma Op2Stays(k: Setting, g: Gen, isFloat: bool, op: BinaryOp, t: LType, a: Operand, b: Operand, clean: bool)
    requires Visitable(k, g, clean) && (op.IsArithmetic() || op.IsRelation())
    requires HasTypeIn(g, a, t) && HasTypeIn(g, b, t)
    requires if isFloat then t == F32T else t == I32T || (t == I1 && (op.Eq? || op.Ne?))
    ensures ExprTyped(k, Lowered(EmitDef(g, ResultType(isFloat, op), Op2(NextReg(g), SelectOp2(isFloat, op), a, b)),
                                 Some(Reg(NextReg(g)))), ResultType(isFloat, op), clean)
  {
    hide CodeTyped, ScopesTyped, KnowsFunctions, Ready, EmitDef;
    DefStays(k, g, ResultType(isFloat, op), Op2(NextReg(g), SelectOp2(isFloat, op), a, b), clean);
  }

  lemma MonadicStays(k: Setting, g: Gen, op: UnaryOp, t: TType, v: Operand, clean: bool)
    requires Visitable(k, g, clean) && !op.Pos? && (if op.Not? then t == BOOL else IsNumber(t))
    requires HasTypeIn(g, v, ToLType(t))
    ensures ExprTyped(k, LowerMonadic(g, op, t, v), ToLType(t), clean)
  {
    var i := Op1(NextReg(g), if op.Not? then NotI else if t == FLOAT then NegF else NegI, v);
    DefStays(k, g, ToLType(t), i, clean);
  }

  lemma StartShortCircuitStays(k: Setting, g: Gen, op: BinaryOp, v: Operand, clean: bool)
    requires Visitable(k, g, clean) && HasTypeIn(g, v, I1)
    ensures var h := StartShortCircuit(g, op, v);
      Visitable(k, h, clean) && Defines(h.code, NextReg(g), PtrTo(I1))
  {
    hide TypedState, Ready, Underway, Terminated, Attach;
    var slot, rhs, merge := NextReg(g), NextLabel(g), NextLabel(g) + 1;
    ShapeStartShortCircuit(g, op, v, k.lo);
    var ga := EmitDef(g, PtrTo(I1), Alloca(slot, I1));
    DefStays(k, g, PtrTo(I1), Alloca(slot, I1), clean);
    EmitStays(k, ga, Store(v, slot), clean);
    var gb := Emit(ga, Store(v, slot));
    CreateStays(k, gb, Some(g.cur), clean);
    var gc := CreateBlock(gb, Some(g.cur));
    CreateStays(k, gc, None, clean);
    var gd := CreateBlock(gc, None);
    var i := if op.And? then CondBr(v, rhs, merge) else CondBr(v, merge, rhs);
    EmitStays(k, gd, i, clean);
    SwitchStays(k, Emit(gd, i), rhs, clean);
  }

  lemma EndShortCircuitStays(k: Setting, g: Gen, slot: nat, merge: nat, v: Operand, clean: bool)
    requires TypedState(k, g, clean) && HasTypeIn(g, v, I1) && Defines(g.code, slot, PtrTo(I1))
    ensures ExprTyped(k, EndShortCircuit(g, slot, merge, v), I1, clean)
  {
    hide TypedState;
    EmitStays(k, g, Store(v, slot), clean);
    var g1 := Emit(g, Store(v, slot));
    EmitStays(k, g1, Br(merge), clean);
    SwitchStays(k, Emit(g1, Br(merge)), merge, clean);
    var g2 := SetInsert(Attach(Emit(g1, Br(merge)), merge), merge);
    RegStays(k, g2, I1, clean);
    EmitStays(k, g2.(code := g2.code.(regs := g2.code.regs + [I1])), Load(NextReg(g2), I1, slot), clean);
  }

  /** A visited expression leaves an operand of its tree's type, and the code stays well typed
      unless the expression compares a bool with an int; then it does not. */
  lemma {:induction false} TypeExpr(k: Setting, g: Gen, e: Expr, clean: bool)
    requires Visitable(k, g, clean) && TypedExpr(k.p, k.names, e) && LowerExpr(g, e).g.ok
    ensures ExprTyped(k, LowerExpr(g, e), ToLType(e.Type()), clean && Unmixed(e))
    decreases e
  {
    match e
    case Var(x, t) =>
      LookupTyped(g, k.names, g.scopes, x);
      DefStays(k, g, ToLType(t), Load(NextReg(g), ToLType(t), Lookup(g.scopes, x).value), clean);
    case BoolLit(_) =>
    case IntLit(_) =>
    case FloatLit(_) =>
    case Binary(_, op, _, _) =>
      if op.And? || op.Or? { TypeLogical(k, g, e, clean); } else { TypeStrict(k, g, e, clean); }
    case Unary(op, sub) =>
      ShapeExpr(g, sub, k.lo);
      var g1 := LowerExpr(g, sub);
      TypeExpr(k, g, sub, clean);
      if !op.Pos? {
        MonadicStays(k, g1.g, op, sub.Type(), g1.operand.value, clean && Unmixed(sub));
      }
    case Call(_, _, _) => TypeCall(k, g, e, clean);
  }

  lemma {:induction false} TypeStrict(k: Setting, g: Gen, e: Expr, clean: bool)
    requires Visitable(k, g, clean) && TypedExpr(k.p, k.names, e) && e.Binary? && !e.op.And? && !e.op.Or?
    requires LowerExpr(g, e).g.ok
    ensures ExprTyped(k, LowerExpr(g, e), ToLType(e.Type()), clean && Unmixed(e))
    decreases e, 0
  {
    hide TypedState, Ready, LowerStrict, Settled, Tidy;
    var g1 := LowerExpr(g, e.lhs);
    ShapeExpr(g, e.lhs, k.lo);
    var g2 := LowerExpr(g1.g, e.rhs);
    ShapeExpr(g1.g, e.rhs, k.lo);
    TypeExpr(k, g, e.lhs, clean);
    TypeExpr(k, g1.g, e.rhs, clean && Unmixed(e.lhs));
    TypedHasType(k.p, k.names, e.lhs);
    TypedHasType(k.p, k.names, e.rhs);
    GrowsTypes(g1.g, g2.g);
    TypeStays(g1.g, g2.g, g1.operand.value, ToLType(e.lhs.Type()));
    StrictStays(k, g2.g, e.op, e.lhs.Type(), e.rhs.Type(), g1.operand.value, g2.operand.value,
                clean && Unmixed(e.lhs) && Unmixed(e.rhs));
  }

  lemma GrowsTypes(g: Gen, h: Gen)
    requires Grows(g, h)
    ensures GrownTypes(g, h)
  {
  }

  lemma {:induction false} TypeLogical(k: Setting, g: Gen, e: Expr, clean: bool)
    requires Visitable(k, g, clean) && TypedExpr(k.p, k.names, e) && e.Binary? && (e.op.And? || e.op.Or?)
    requires LowerExpr(g, e).g.ok
    ensures ExprTyped(k, LowerExpr(g, e), ToLType(e.Type()), clean && Unmixed(e))
    decreases e, 0
  {
    hide TypedState, Ready, StartShortCircuit, EndShortCircuit, Settled, Tidy;
    var g1 := LowerExpr(g, e.lhs);
    ShapeExpr(g, e.lhs, k.lo);
    TypeExpr(k, g, e.lhs, clean);
    var clean1 := clean && Unmixed(e.lhs);
    StartShortCircuitStays(k, g1.g, e.op, g1.operand.value, clean1);
    var g2 := StartShortCircuit(g1.g, e.op, g1.operand.value);
    var g3 := LowerExpr(g2, e.rhs);
    ShapeExpr(g2, e.rhs, k.lo);
    TypeExpr(k, g2, e.rhs, clean1);
    GrowsTypes(g2, g3.g);
    EndShortCircuitStays(k, g3.g, NextReg(g1.g), NextLabel(g1.g) + 1, g3.operand.value, clean1 && Unmixed(e.rhs));
  }

  lemma {:induction false} TypeCall(k: Setting, g: Gen, e: Expr, clean: bool)
    requires Visitable(k, g, clean) && TypedExpr(k.p, k.names, e) && e.Call? && LowerExpr(g, e).g.ok
    ensures ExprTyped(k, LowerExpr(g, e), ToLType(e.Type()), clean && Unmixed(e))
    decreases e, 0
  {
    hide CodeTyped, ScopesTyped, Ready, TypedInstr, HasTypeIn, LowerArgs, EmitDef, MixedCode;
    var i := g.funcs[e.callee];
    FoundFunction(k.p, e.callee, i);
    var fn := g.code.fns[i];
    ShapeArgs(g, e.args, fn.params, k.lo);
    var g1 := LowerArgs(g, e.args, fn.params);
    DefKeepsOk(g1.g, fn.ret, CallFn(NextReg(g1.g), i, g1.operands));
    TypeArgs(k, g, e.args, fn.params, clean);
    CallInstrTyped(g1.g, i, g1.operands);
    DefStays(k, g1.g, fn.ret, CallFn(NextReg(g1.g), i, g1.operands), clean && UnmixedAll(e.args));
  }

  lemma DefKeepsOk(g: Gen, t: LType, i: Instr)
    ensures EmitDef(g, t, i).ok == g.ok
  {
  }

  lemma CallInstrTyped(g: Gen, fn: nat, ops: seq<Operand>)
    requires fn < |g.code.fns| && HaveTypes(g, ops, g.code.fns[fn].params) && DataSignature(g.code.fns[fn])
    ensures var t := g.code.fns[fn].ret;
      TypedInstr(g.code.(regs := g.code.regs + [t]), Params(g), Result(g), CallFn(NextReg(g), fn, ops))
  {
    var c := g.code.(regs := g.code.regs + [g.code.fns[fn].ret]);
    forall k | 0 <= k < |ops| ensures TypeOf(c, Params(g), ops[k]) == Some(g.code.fns[fn].params[k]) {
      assert HasTypeIn(g, ops[k], g.code.fns[fn].params[k]);
    }
  }

  ghost predicate DataSignature(f: Fn) {
    IsData(f.ret) && forall i :: 0 <= i < |f.params| ==> IsData(f.params[i])
  }

  ghost predicate HaveTypes(g: Gen, ops: seq<Operand>, ts: seq<LType>) {
    |ops| == |ts| && forall i :: 0 <= i < |ops| ==> HasTypeIn(g, ops[i], ts[i])
  }

  lemma {:induction false} TypeArgs(k: Setting, g: Gen, args: seq<Expr>, params: seq<LType>, clean: bool)
    requires Visitable(k, g, clean) && |args| == |params| && LowerArgs(g, args, params).g.ok
    requires forall i :: 0 <= i < |args| ==> TypedExpr(k.p, k.names, args[i]) && IsData(params[i])
    ensures var r := LowerArgs(g, args, params);
      TypedState(k, r.g, clean && UnmixedAll(args)) && HaveTypes(r.g, r.operands, params)
    decreases args
  {
    hide TypedState, LowerCast, Settled, Tidy;
    if args != [] {
      var g1 := LowerExpr(g, args[0]);
      ShapeExpr(g, args[0], k.lo);
      ArgsSucceed(g, args, params, k.lo);
      TypeExpr(k, g, args[0], clean);
      var clean1 := clean && Unmixed(args[0]);
      TypedHasType(k.p, k.names, args[0]);
      CastStays(k, g1.g, g1.operand.value, ToLType(args[0].Type()), params[0], clean1);
      var g2 := LowerCast(g1.g, g1.operand.value, params[0]);
      TypeArgs(k, g2.g, args[1..], params[1..], clean1);
      ShapeArgs(g2.g, args[1..], params[1..], k.lo);
      var g3 := LowerArgs(g2.g, args[1..], params[1..]);
      GrowsTypes(g2.g, g3.g);
      TypeStays(g2.g, g3.g, g2.operand.value, params[0]);
    }
  }

  /** If the arguments were visited without an error, so was the first. */
  lemma ArgsSucceed(g: Gen, args: seq<Expr>, params: seq<LType>, lo: nat)
    requires Ready(g, lo) && |args| == |params| && LowerArgs(g, args, params).g.ok && args != []
    ensures LowerExpr(g, args[0]).g.ok
  {
    hide LowerExpr;
  }

  // ----- statements -----

  /** Other scopes, as long as they are typed. */
  lemma RescopedStays(k: Setting, g: Gen, scopes: seq<Scope>, clean: bool)
    requires TypedState(k, g, clean) && ScopesTyped(g.(scopes := scopes), k.names)
    ensures TypedState(k, g.(scopes := scopes), clean)
  {
    if clean {
      SameCodeTyped(g, g.(scopes := scopes), k.lo);
    }
  }

  lemma DeclareStays(k: Setting, g: Gen, x: string, slot: nat, clean: bool)
    requires TypedState(k, g, clean) && x in k.names && Defines(g.code, slot, PtrTo(ToLType(k.names[x])))
    ensures TypedState(k, g.(scopes := Declare(g.scopes, x, slot)), clean)
  {
    RescopedStays(k, g, Declare(g.scopes, x, slot), clean);
  }

  lemma JoinStays(k: Setting, g: Gen, target: nat, next: nat, clean: bool)
    requires TypedState(k, g, clean)
    ensures TypedState(k, SetInsert(Attach(BranchIfOpen(g, target), next), next), clean)
  {
    EmitStays(k, g, Br(target), clean);
    SwitchStays(k, BranchIfOpen(g, target), next, clean);
  }

  lemma ConversionStays(k: Setting, g: Gen, v: Operand, from: TType, to: TType, clean: bool)
    requires Visitable(k, g, clean) && HasTypeIn(g, v, ToLType(from)) && from != UNDEFINED
    ensures var c := LowerConversion(g, v, from, to);
      Visitable(k, c.g, clean) && GrownTypes(g, c.g) && HasTypeIn(c.g, c.operand.value, ToLType(to))
      && c.g.scopes == g.scopes
  {
    if from != to {
      CastStays(k, g, v, ToLType(from), ToLType(to), clean);
    }
  }

  lemma TypeAssign(k: Setting, g: Gen, x: string, t: TType, from: TType, v: Operand, clean: bool)
    requires Visitable(k, g, clean) && HasTypeIn(g, v, ToLType(from)) && from != UNDEFINED
    requires x in k.names && k.names[x] == t
    ensures TypedState(k, LowerAssign(g, x, t, from, v), clean)
  {
    hide TypedState, Ready, GrownTypes, LowerConversion, Emit, EmitDef;
    var lt := ToLType(t);
    match Lookup(g.scopes, x)
    case Some(slot) =>
      SlotTyped(k, g, x, clean);
      StoreStays(k, g, slot, v, from, t, clean);
    case None =>
      var slot := NextReg(g);
      AllocaStays(k, g, lt, clean);
      var g1 := EmitDef(g, PtrTo(lt), Alloca(slot, lt));
      TypeStays(g, g1, v, ToLType(from));
      StoreStays(k, g1, slot, v, from, t, clean);
      var c := LowerConversion(g1, v, from, t);
      DeclareStays(k, Emit(c.g, Store(c.operand.value, slot)), x, slot, clean);
  }

  lemma SlotTyped(k: Setting, g: Gen, x: string, clean: bool)
    requires TypedState(k, g, clean) && Lookup(g.scopes, x).Some?
    ensures x in k.names && Defines(g.code, Lookup(g.scopes, x).value, PtrTo(ToLType(k.names[x])))
  {
    LookupTyped(g, k.names, g.scopes, x);
  }

  lemma AllocaStays(k: Setting, g: Gen, t: LType, clean: bool)
    requires Visitable(k, g, clean) && IsData(t)
    ensures var h := EmitDef(g, PtrTo(t), Alloca(NextReg(g), t));
      Visitable(k, h, clean) && GrownTypes(g, h) && Defines(h.code, NextReg(g), PtrTo(t))
      && h.scopes == g.scopes
  {
    DefStays(k, g, PtrTo(t), Alloca(NextReg(g), t), clean);
  }

  lemma StoreStays(k: Setting, g: Gen, slot: nat, v: Operand, from: TType, to: TType, clean: bool)
    requires Visitable(k, g, clean) && HasTypeIn(g, v, ToLType(from)) && from != UNDEFINED
    requires Defines(g.code, slot, PtrTo(ToLType(to)))
    ensures var c := LowerConversion(g, v, from, to);
      var h := Emit(c.g, Store(c.operand.value, slot));
      TypedState(k, h, clean) && Defines(h.code, slot, PtrTo(ToLType(to)))
  {
    hide TypedState, Ready, LowerConversion;
    ConversionStays(k, g, v, from, to, clean);
    var c := LowerConversion(g, v, from, to);
    EmitStays(k, c.g, Store(c.operand.value, slot), clean);
  }

  lemma TypePrint(k: Setting, g: Gen, t: TType, v: Operand, clean: bool)
    requires Visitable(k, g, clean) && HasTypeIn(g, v, ToLType(t)) && t != UNDEFINED
    ensures TypedState(k, LowerPrint(g, t, v), clean)
  {
    hide TypedState, Ready, GrownTypes;
    if t == FLOAT {
      DefStays(k, g, F64T, FPExt(NextReg(g), v), clean);
      EmitStays(k, EmitDef(g, F64T, FPExt(NextReg(g), v)), PrintF64(NextReg(g)), clean);
    } else if t == BOOL {
      DefStays(k, g, I32T, Op1(NextReg(g), ZExtI, v), clean);
      EmitStays(k, EmitDef(g, I32T, Op1(NextReg(g), ZExtI, v)), PrintI32(Reg(NextReg(g))), clean);
    } else {
      EmitStays(k, g, PrintI32(v), clean);
    }
  }

  lemma TypeReturn(k: Setting, g: Gen, t: TType, v: Operand, clean: bool)
    requires Visitable(k, g, clean) && HasTypeIn(g, v, ToLType(t)) && t != UNDEFINED
    ensures TypedState(k, LowerReturn(g, v), clean)
  {
    hide CodeTyped, ScopesTyped, Ready;
    var ret := g.code.fns[g.cur].ret;
    CastStays(k, g, v, ToLType(t), ret, clean);
    var c := LowerCast(g, v, ret);
    EmitStays(k, c.g, Ret(c.operand.value), clean);
  }

  lemma StartIfStays(k: Setting, g: Gen, c: Operand, clean: bool)
    requires TypedState(k, g, clean) && HasTypeIn(g, c, I1)
    ensures TypedState(k, StartIf(g, c), clean)
  {
    hide TypedState;
    var l := NextLabel(g);
    var g1 := CreateBlock(g, Some(g.cur));
    var g2 := CreateBlock(g1, None);
    CreateStays(k, g, Some(g.cur), clean);
    CreateStays(k, g1, None, clean);
    CreateStays(k, g2, None, clean);
    var g3 := CreateBlock(g2, None);
    EmitStays(k, g3, CondBr(c, l, l + 1), clean);
    SwitchStays(k, Emit(g3, CondBr(c, l, l + 1)), l, clean);
  }

  lemma StartWhileStays(k: Setting, g: Gen, clean: bool)
    requires TypedState(k, g, clean)
    ensures TypedState(k, StartWhile(g), clean) && TypedState(k, StartDoWhile(g), clean)
  {
    hide TypedState;
    var l := NextLabel(g);
    var g1 := CreateBlock(g, Some(g.cur));
    var g2 := CreateBlock(g1, Some(g.cur));
    var g3 := CreateBlock(g2, None);
    CreateStays(k, g, Some(g.cur), clean);
    CreateStays(k, g1, Some(g.cur), clean);
    CreateStays(k, g2, None, clean);
    EmitStays(k, g3, Br(l), clean);
    SwitchStays(k, Emit(g3, Br(l)), l, clean);
    var h := CreateBlock(g1, None);
    CreateStays(k, g1, None, clean);
    EmitStays(k, h, Br(l), clean);
    SwitchStays(k, Emit(h, Br(l)), l, clean);
  }

  /** A condition's operand is an `i1`, so the branch on it is typed. */
  lemma BranchStays(k: Setting, r: Lowered, ifTrue: nat, ifFalse: nat, clean: bool)
    requires ExprTyped(k, r, I1, clean) && r.g.ok && r.operand.Some?
    ensures TypedState(k, Emit(r.g, CondBr(r.operand.value, ifTrue, ifFalse)), clean)
  {
    EmitStays(k, r.g, CondBr(r.operand.value, ifTrue, ifFalse), clean);
  }

  lemma {:induction false} TypeStmt(k: Setting, g: Gen, s: Stmt, clean: bool)
    requires Visitable(k, g, clean) && TypedStmt(k.p, k.names, s) && LowerStmt(g, s).ok
    ensures TypedState(k, LowerStmt(g, s), clean && UnmixedStmt(s))
    decreases s
  {
    match s
    case Assign(x, t, rhs) =>
      TypeOperand(k, g, rhs, clean);
      var g1 := LowerExpr(g, rhs);
      TypeAssign(k, g1.g, x, t, rhs.Type(), g1.operand.value, clean && Unmixed(rhs));
    case Print(e) =>
      TypeOperand(k, g, e, clean);
      var g1 := LowerExpr(g, e);
      TypePrint(k, g1.g, e.Type(), g1.operand.value, clean && Unmixed(e));
    case Return(e) =>
      TypeOperand(k, g, e, clean);
      var g1 := LowerExpr(g, e);
      TypeReturn(k, g1.g, e.Type(), g1.operand.value, clean && Unmixed(e));
    case CallStmt(_) =>
    case Block(ss) => TypeBlock(k, g, s, clean);
    case If(_, _, _) => TypeIf(k, g, s, clean);
    case While(_, _) => TypeWhile(k, g, s, clean);
    case DoWhile(_, _) => TypeDoWhile(k, g, s, clean);
  }

  lemma TypeOperand(k: Setting, g: Gen, e: Expr, clean: bool)
    requires Visitable(k, g, clean) && TypedExpr(k.p, k.names, e)
    ensures var r := LowerExpr(g, e);
      && e.Type() != UNDEFINED && r.g.scopes == g.scopes
      && (r.g.ok ==> r.operand.Some? && Visitable(k, r.g, clean && Unmixed(e))
                     && HasTypeIn(r.g, r.operand.value, ToLType(e.Type())))
  {
    hide TypedState;
    ShapeExpr(g, e, k.lo);
    TypedHasType(k.p, k.names, e);
    if LowerExpr(g, e).g.ok {
      TypeExpr(k, g, e, clean);
    }
  }

  lemma {:induction false} TypeBlock(k: Setting, g: Gen, s: Stmt, clean: bool)
    requires s.Block?
    requires Visitable(k, g, clean) && TypedStmt(k.p, k.names, s) && LowerStmt(g, s).ok
    ensures TypedState(k, LowerStmt(g, s), clean && UnmixedStmt(s))
    decreases s, 0
  {
    hide Visitable, TypedState;
    var g0 := g.(scopes := g.scopes + [map[]]);
    PushStays(k, g, clean);
    TypeSeq(k, g0, s.stmts, clean);
    PopStays(k, LowerSeq(g0, s.stmts), clean && UnmixedSeq(s.stmts));
  }

  lemma PushStays(k: Setting, g: Gen, clean: bool)
    requires Visitable(k, g, clean)
    ensures Visitable(k, g.(scopes := g.scopes + [map[]]), clean)
  {
    hide CodeTyped;
    var scopes := g.scopes + [map[]];
    UnderwayStart(g, {}, k.lo);
    ShapeRescoped(g, g, scopes, k.lo);
    RescopedStays(k, g, scopes, clean);
  }

  lemma PopStays(k: Setting, g: Gen, clean: bool)
    requires TypedState(k, g, clean)
    ensures TypedState(k, g.(scopes := Popped(g.scopes)), clean)
  {
    hide CodeTyped;
    RescopedStays(k, g, Popped(g.scopes), clean);
  }

  lemma {:induction false} TypeSeq(k: Setting, g: Gen, ss: seq<Stmt>, clean: bool)
    requires Visitable(k, g, clean) && LowerSeq(g, ss).ok
    requires forall i :: 0 <= i < |ss| ==> TypedStmt(k.p, k.names, ss[i])
    ensures TypedState(k, LowerSeq(g, ss), clean && UnmixedSeq(ss))
    decreases ss
  {
    hide TypedState;
    if ss != [] {
      ShapeStmt(g, ss[0], k.lo);
      var g1 := LowerStmt(g, ss[0]);
      TypeStmt(k, g, ss[0], clean);
      EndsExactly(g, ss[0], k.lo);
      if !Ends(ss[0]) {
        TypeSeq(k, g1, ss[1..], clean && UnmixedStmt(ss[0]));
      }
    }
  }

  lemma {:induction false} TypeIf(k: Setting, g: Gen, s: Stmt, clean: bool)
    requires s.If?
    requires Visitable(k, g, clean) && TypedStmt(k.p, k.names, s) && LowerStmt(g, s).ok
    ensures TypedState(k, LowerStmt(g, s), clean && UnmixedStmt(s))
    decreases s, 1
  {
    hide TypedState, LowerStmt, LowerExpr, Ready, Underway, StmtShape, TypedStmt, UnmixedStmt;
    var st, clean2 := TypeThen(k, g, s, clean);
    ShapeOfElse(g, s, k.lo);
    TypeElse(k, s, st, clean2);
    UnmixedIf(s);
  }

  lemma UnmixedIf(s: Stmt)
    requires s.If?
    ensures UnmixedStmt(s) <==>
      Unmixed(s.cond) && UnmixedStmt(s.thn) && (s.els.Some? ==> UnmixedStmt(s.els.value))
  {
  }

  /** The condition, the branch and the first arm. */
  lemma {:induction false} TypeThen(k: Setting, g: Gen, s: Stmt, clean: bool) returns (st: IfStages, clean2: bool)
    requires s.If?
    requires Visitable(k, g, clean) && TypedStmt(k.p, k.names, s) && LowerStmt(g, s).ok
    ensures StagesOfIf(g, s) == Some(st) && clean2 == (clean && Unmixed(s.cond) && UnmixedStmt(s.thn))
    ensures TypedState(k, st.elseStart, clean2) && DistinctNames(k.p)
    ensures s.els.Some? ==> TypedStmt(k.p, k.names, s.els.value)
    decreases s, 0
  {
    hide TypedState, LowerStmt, LowerExpr, Ready, Underway, StmtShape, BranchIfOpen, Attach, StartIf, Waiting, UnmixedStmt;
    IfSucceeds(g, s, k.lo);
    st := StagesOfIf(g, s).value;
    ShapeOfThen(g, s, k.lo);
    TypeOperand(k, g, s.cond, clean);
    var clean1 := clean && Unmixed(s.cond);
    StartIfStays(k, st.test.g, st.test.operand.value, clean1);
    TypeStmt(k, st.thenStart, s.thn, clean1);
    clean2 := clean1 && UnmixedStmt(s.thn);
    JoinStays(k, st.thenEnd, st.l + 2, st.l + 1, clean2);
  }

  lemma {:induction false} TypeElse(k: Setting, s: Stmt, st: IfStages, clean: bool)
    requires s.If? && ElseShape(st, k.lo) && TypedState(k, st.elseStart, clean) && DistinctNames(k.p)
    requires s.els.Some? ==> TypedStmt(k.p, k.names, s.els.value)
    requires st.elseEnd == if s.els.Some? then LowerStmt(st.elseStart, s.els.value) else st.elseStart
    requires st.elseEnd.ok && st.end == SetInsert(Attach(BranchIfOpen(st.elseEnd, st.l + 2), st.l + 2), st.l + 2)
    ensures TypedState(k, st.end, clean && (s.els.Some? ==> UnmixedStmt(s.els.value)))
    decreases s, 0
  {
    hide TypedState, LowerStmt, Ready, Underway, StmtShape, UnmixedStmt, TypedStmt;
    if s.els.Some? {
      TypeStmt(k, st.elseStart, s.els.value, clean);
    }
    JoinStays(k, st.elseEnd, st.l + 2, st.l + 2, clean && (s.els.Some? ==> UnmixedStmt(s.els.value)));
  }

  lemma {:induction false} TypeWhile(k: Setting, g: Gen, s: Stmt, clean: bool)
    requires s.While?
    requires Visitable(k, g, clean) && TypedStmt(k.p, k.names, s) && LowerStmt(g, s).ok
    ensures TypedState(k, LowerStmt(g, s), clean && UnmixedStmt(s))
    decreases s, 0
  {
    hide TypedState, LowerStmt, LowerExpr, Ready, Underway, StmtShape;
    WhileSucceeds(g, s, k.lo);
    var st := StagesOfWhile(g, s).value;
    ShapeOfLoop(g, s, k.lo);
    StartWhileStays(k, g, clean);
    TypeOperand(k, st.loopStart, s.cond, clean);
    var clean1 := clean && Unmixed(s.cond);
    BranchStays(k, st.test, st.l + 1, st.l + 2, clean1);
    SwitchStays(k, Emit(st.test.g, CondBr(st.test.operand.value, st.l + 1, st.l + 2)), st.l + 1, clean1);
    TypeStmt(k, st.bodyStart, s.body, clean1);
    JoinStays(k, st.bodyEnd, st.l, st.l + 2, clean1 && UnmixedStmt(s.body));
  }

  lemma {:induction false} TypeDoWhile(k: Setting, g: Gen, s: Stmt, clean: bool)
    requires s.DoWhile?
    requires Visitable(k, g, clean) && TypedStmt(k.p, k.names, s) && LowerStmt(g, s).ok
    ensures TypedState(k, LowerStmt(g, s), clean && UnmixedStmt(s))
    decreases s, 0
  {
    hide Visitable, TypedState, StmtShape, StartDoWhile, Underway, Waiting;
    var l := NextLabel(g);
    var g0 := StartDoWhile(g);
    StartDoStays(k, g, clean);
    InsideFunction(k, g0, clean);
    ShapeStmt(g0, s.body, k.lo);
    TypeStmt(k, g0, s.body, clean);
    EndsExactly(g0, s.body, k.lo);
    var g1 := LowerStmt(g0, s.body);
    var clean1 := clean && UnmixedStmt(s.body);
    if Ends(s.body) {
      SwitchStays(k, g1, l + 1, clean1);
    } else {
      StillVisitable(k, g0, g1, clean, clean1);
      DoTestStays(k, g1, s.cond, l, clean1);
    }
  }

  lemma InsideFunction(k: Setting, g: Gen, clean: bool)
    requires Visitable(k, g, clean)
    ensures g.cur < |g.code.fns| && Ready(g, k.lo)
  {
  }

  lemma StartDoStays(k: Setting, g: Gen, clean: bool)
    requires Visitable(k, g, clean)
    ensures Visitable(k, StartDoWhile(g), clean) && Ready(StartDoWhile(g), k.lo)
  {
    hide TypedState, StartDoWhile;
    ShapeStartDoWhile(g, k.lo);
    StartWhileStays(k, g, clean);
  }

  lemma StillVisitable(k: Setting, g: Gen, h: Gen, clean: bool, clean1: bool)
    requires Visitable(k, g, clean) && TypedState(k, h, clean1)
    requires StmtShape(g, h, k.lo) && !Terminated(InsertBlock(h))
    ensures Visitable(k, h, clean1)
  {
    hide TypedState;
    StillReady(g, h, k.lo);
  }

  lemma StillReady(g: Gen, h: Gen, lo: nat)
    requires StmtShape(g, h, lo) && !Terminated(InsertBlock(h))
    ensures Ready(h, lo)
  {
  }

  lemma DoTestStays(k: Setting, g: Gen, c: Expr, l: nat, clean: bool)
    requires Visitable(k, g, clean) && TypedExpr(k.p, k.names, c) && c.Type() == BOOL
    ensures var r := LowerExpr(g, c);
      r.g.ok ==> r.operand.Some? && TypedState(k,
        SetInsert(Attach(Emit(r.g, CondBr(r.operand.value, l, l + 1)), l + 1), l + 1), clean && Unmixed(c))
  {
    hide TypedState, Ready;
    TypeOperand(k, g, c, clean);
    var r := LowerExpr(g, c);
    if r.g.ok {
      BranchStays(k, r, l, l + 1, clean && Unmixed(c));
      SwitchStays(k, Emit(r.g, CondBr(r.operand.value, l, l + 1)), l + 1, clean && Unmixed(c));
    }
  }

  // ----- where generation stops -----

  // ----- functions and programs -----

  /** Cells for parameters: each is typed, in the function's own scope. */
  /** After the prologue every parameter's name is bound to a cell of the type of the last one so named. */
  lemma {:induction false} TypeParams(k: Setting, g: Gen, ps: seq<Param>, clean: bool)
    requires Visitable(k.(names := map[]), g, clean) && |Params(g)| >= |ps| && |g.scopes| == 1
    requires forall i :: 0 <= i < |ps| ==> Params(g)[i] == ToLType(ps[i].ty)
    ensures var h := LowerParams(g, ps);
      TypedState(k.(names := LastTypes(ps)), h, clean) && Params(h) == Params(g) && GrownTypes(g, h) && |h.scopes| == 1
    decreases ps
  {
    hide TypedState, Ready, Emit, EmitDef;
    if ps != [] {
      var i := |ps| - 1;
      var before, x, t := k.(names := LastTypes(ps[..i])), ps[i].name, ToLType(ps[i].ty);
      TypeParams(k, g, ps[..i], clean);
      ShapeParams(g, ps[..i], k.lo);
      var g1 := LowerParams(g, ps[..i]);
      AllocaStays(before, g1, t, clean);
      var g2 := EmitDef(g1, PtrTo(t), Alloca(NextReg(g1), t));
      ParamStored(before, g2, i, NextReg(g1), t, clean);
      ParamScopes(g1, t, i);
      ParamBound(before, Emit(g2, Store(Arg(i), NextReg(g1))), x, ps[i].ty, NextReg(g1), clean);
    }
  }

  lemma ParamScopes(g: Gen, t: LType, i: nat)
    ensures Emit(EmitDef(g, PtrTo(t), Alloca(NextReg(g), t)), Store(Arg(i), NextReg(g))).scopes == g.scopes
  {
  }

  /** In the single scope of a prologue a name is bound anew. */
  lemma ParamBound(k: Setting, g: Gen, x: string, ty: TType, slot: nat, clean: bool)
    requires TypedState(k, g, clean) && |g.scopes| == 1 && Defines(g.code, slot, PtrTo(ToLType(ty)))
    ensures TypedState(k.(names := k.names[x := ty]), g.(scopes := Declare(g.scopes, x, slot)), clean)
    ensures |Declare(g.scopes, x, slot)| == 1
  {
    var h := g.(scopes := Declare(g.scopes, x, slot));
    if clean {
      forall l | k.lo <= l < |h.code.blocks| ensures InstrsTyped(h, h.code.blocks[l].code) {
        assert InstrsTyped(g, g.code.blocks[l].code);
      }
    }
  }

  /** What is typed with some names is typed with more. */
  lemma MoreNames(k: Setting, some: Names, g: Gen, clean: bool)
    requires TypedState(k.(names := some), g, clean) && Includes(k.names, some)
    ensures TypedState(k, g, clean)
  {
    hide CodeTyped, MixedCode, KnowsFunctions;
  }

  lemma ParamStored(k: Setting, g: Gen, i: nat, slot: nat, t: LType, clean: bool)
    requires TypedState(k, g, clean) && i < |Params(g)| && Params(g)[i] == t && Defines(g.code, slot, PtrTo(t))
    ensures var h := Emit(g, Store(Arg(i), slot));
      TypedState(k, h, clean) && Defines(h.code, slot, PtrTo(t)) && GrownTypes(g, h)
  {
    EmitStays(k, g, Store(Arg(i), slot), clean);
  }
}
