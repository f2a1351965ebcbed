/** Which blocks paths can lead into, whether or not names are declared on them: the end of a
    statement is not among them if control cannot get past the statement. */
module Reaching {
  import opened Wrappers
  import opened Ast
  import opened Ir
  import opened Lowering
  import opened Shape
  import opened Visits
  import opened Stages
  import opened FlowGraph
  import opened Paths
  import opened Declarations

  /** The blocks that some path may lead into. */
  type Marks = seq<bool>

  /** From a marked block an instruction leads to marked ones only. */
  predicate Leads(blocks: seq<BasicBlock>, marks: Marks, lo: nat, l: nat, k: nat)
    requires l < |blocks| == |marks| && k < |blocks[l].code|
  {
    marks[l] ==> forall t :: t in blocks[l].code[k].Targets() ==> lo <= t < |marks| && marks[t]
  }

  ghost predicate Closed(g: Gen, marks: Marks, lo: nat) {
    && |marks| == |g.code.blocks| && g.insert < |g.code.blocks|
    && forall l, k :: lo <= l < |g.code.blocks| && 0 <= k < |g.code.blocks[l].code| ==> Leads(g.code.blocks, marks, lo, l, k)
  }

  /** Some path may lead to the insert block. */
  predicate Marked(g: Gen, marks: Marks) {
    g.insert < |marks| && marks[g.insert]
  }

  ghost predicate Live(g: Gen, marks: Marks, lo: nat) {
    Closed(g, marks, lo) && Marked(g, marks)
  }

  predicate MayLeadTo(marks: Marks, lo: nat, t: nat) {
    lo <= t < |marks| && marks[t]
  }

  // ----- the builder's steps -----

  lemma EmitClosed(g: Gen, marks: Marks, i: Instr, lo: nat)
    requires Closed(g, marks, lo)
    requires Marked(g, marks) ==> forall t :: t in i.Targets() ==> MayLeadTo(marks, lo, t)
    ensures Closed(Emit(g, i), marks, lo)
  {
    var a, b := g.code.blocks, Emit(g, i).code.blocks;
    forall l, k | lo <= l < |b| && 0 <= k < |b[l].code| ensures Leads(b, marks, lo, l, k) {
      if k < |a[l].code| {
        assert Leads(a, marks, lo, l, k);
      }
    }
  }

  lemma CreateClosed(g: Gen, marks: Marks, parent: Option<nat>, mark: bool, lo: nat)
    requires Closed(g, marks, lo)
    ensures Closed(CreateBlock(g, parent), marks + [mark], lo)
  {
    var a, b := g.code.blocks, CreateBlock(g, parent).code.blocks;
    forall l, k | lo <= l < |b| && 0 <= k < |b[l].code| ensures Leads(b, marks + [mark], lo, l, k) {
      assert Leads(a, marks, lo, l, k);
    }
  }

  lemma EnterClosed(g: Gen, marks: Marks, l: nat, lo: nat)
    requires Closed(g, marks, lo) && l < |g.code.blocks|
    ensures Closed(SetInsert(g, l), marks, lo) && Closed(SetInsert(Attach(g, l), l), marks, lo)
  {
    var a, b := g.code.blocks, Attach(g, l).code.blocks;
    forall m, k | lo <= m < |b| && 0 <= k < |b[m].code| ensures Leads(b, marks, lo, m, k) {
      assert Leads(a, marks, lo, m, k);
    }
  }

  /** The visit has only added instructions without targets to the insert block. */
  ghost predicate Straight(g: Gen, h: Gen) {
    && h.insert == g.insert && |h.code.blocks| == |g.code.blocks|
    && (forall l :: 0 <= l < |g.code.blocks| ==> g.code.blocks[l].code <= h.code.blocks[l].code)
    && forall l, k :: 0 <= l < |g.code.blocks| && |g.code.blocks[l].code| <= k < |h.code.blocks[l].code| ==>
         h.code.blocks[l].code[k].Targets() == {}
  }

  lemma StraightEmit(g: Gen, i: Instr)
    requires i.Targets() == {}
    ensures Straight(g, Emit(g, i))
    ensures forall t :: Straight(g, EmitDef(g, t, i))
  {
    forall t ensures Straight(g, EmitDef(g, t, i)) {
    }
  }

  lemma StraightThen(g: Gen, h: Gen, k: Gen)
    requires Straight(g, h) && Straight(h, k)
    ensures Straight(g, k)
  {
  }

  lemma StraightClosed(g: Gen, h: Gen, marks: Marks, lo: nat)
    requires Closed(g, marks, lo) && Straight(g, h)
    ensures Closed(h, marks, lo) && (Marked(h, marks) <==> Marked(g, marks))
  {
    var a, b := g.code.blocks, h.code.blocks;
    forall l, k | lo <= l < |b| && 0 <= k < |b[l].code| ensures Leads(b, marks, lo, l, k) {
      if k < |a[l].code| {
        assert Leads(a, marks, lo, l, k);
      }
    }
  }

  /** A whole visit in a block that no path leads into. */
  lemma DeadVisit(g: Gen, marks: Marks, h: Gen, lo: nat) returns (later: Marks)
    requires Closed(g, marks, lo) && !Marked(g, marks) && Grows(g, h)
    ensures Closed(h, later, lo) && marks <= later && !Marked(h, later)
  {
    later := marks + seq(|h.code.blocks| - |g.code.blocks|, l => false);
    var a, b := g.code.blocks, h.code.blocks;
    forall l, k | lo <= l < |b| && 0 <= k < |b[l].code| ensures Leads(b, later, lo, l, k) {
      if l < |a| && l != g.insert {
        assert b[l] == a[l];
        assert Leads(a, marks, lo, l, k);
      }
    }
  }

  // ----- expressions -----

  lemma CastStraight(g: Gen, op: Operand, to: LType)
    ensures Straight(g, LowerCast(g, op, to).g)
  {
    StraightEmit(g, Op1(NextReg(g), CastTo(to), op));
  }

  lemma StrictStraight(g: Gen, isFloat: bool, op: BinaryOp, l: Operand, r: Operand)
    requires op.IsArithmetic() || op.IsRelation()
    ensures Straight(g, LowerStrict(g, isFloat, op, l, r).g)
  {
    hide LowerCast, EmitDef, Straight;
    var l1 := if isFloat then LowerCast(g, l, F32T) else Lowered(g, Some(l));
    var r1 := if isFloat then LowerCast(l1.g, r, F32T) else Lowered(l1.g, Some(r));
    if isFloat {
      CastStraight(g, l, F32T);
      CastStraight(l1.g, r, F32T);
      StraightThen(g, l1.g, r1.g);
    }
    var i := Op2(NextReg(r1.g), SelectOp2(isFloat, op), l1.operand.value, r1.operand.value);
    StraightEmit(r1.g, i);
    if isFloat {
      StraightThen(g, r1.g, EmitDef(r1.g, ResultType(isFloat, op), i));
    }
  }

  lemma MonadicStraight(g: Gen, op: UnaryOp, t: TType, v: Operand)
    requires !op.Pos?
    ensures Straight(g, LowerMonadic(g, op, t, v).g)
  {
    StraightEmit(g, Op1(NextReg(g), NotI, v));
    StraightEmit(g, Op1(NextReg(g), NegF, v));
    StraightEmit(g, Op1(NextReg(g), NegI, v));
  }

  lemma LiveStraight(g: Gen, h: Gen, marks: Marks, lo: nat)
    requires Live(g, marks, lo) && Straight(g, h)
    ensures Live(h, marks, lo)
  {
    StraightClosed(g, h, marks, lo);
  }

  /** Two new blocks: the first is entered. */
  lemma StartTwo(g: Gen, marks: Marks, second: bool, i: Instr, lo: nat)
    requires Live(g, marks, lo) && lo <= NextLabel(g)
    requires forall t :: t in i.Targets() ==> t == NextLabel(g) || (t == NextLabel(g) + 1 && second)
    ensures var l := NextLabel(g);
      Live(SetInsert(Emit(CreateBlock(CreateBlock(g, Some(g.cur)), None), i), l), marks + [true] + [second], lo)
  {
    hide Leads;
    var l := NextLabel(g);
    CreateClosed(g, marks, Some(g.cur), true, lo);
    var g1 := CreateBlock(g, Some(g.cur));
    CreateClosed(g1, marks + [true], None, second, lo);
    EmitClosed(CreateBlock(g1, None), marks + [true] + [second], i, lo);
    EnterClosed(Emit(CreateBlock(g1, None), i), marks + [true] + [second], l, lo);
  }

  /** Three new blocks: the first is entered. */
  lemma StartThree(g: Gen, marks: Marks, parent: Option<nat>, third: bool, i: Instr, lo: nat)
    requires Live(g, marks, lo) && lo <= NextLabel(g)
    requires forall t :: t in i.Targets() ==> NextLabel(g) <= t < NextLabel(g) + 2
    ensures var l := NextLabel(g);
      Live(SetInsert(Emit(CreateBlock(CreateBlock(CreateBlock(g, Some(g.cur)), parent), None), i), l),
           marks + [true] + [true] + [third], lo)
  {
    hide Leads;
    var l := NextLabel(g);
    CreateClosed(g, marks, Some(g.cur), true, lo);
    var g1 := CreateBlock(g, Some(g.cur));
    CreateClosed(g1, marks + [true], parent, true, lo);
    var g2 := CreateBlock(g1, parent);
    CreateClosed(g2, marks + [true] + [true], None, third, lo);
    EmitClosed(CreateBlock(g2, None), marks + [true] + [true] + [third], i, lo);
    EnterClosed(Emit(CreateBlock(g2, None), i), marks + [true] + [true] + [third], l, lo);
  }

  lemma StartLive(g: Gen, marks: Marks, op: BinaryOp, v: Operand, lo: nat)
    requires Ready(g, lo) && Live(g, marks, lo)
    ensures Live(StartShortCircuit(g, op, v), marks + [true] + [true], lo)
  {
    hide Closed, Straight, EmitDef, Tidy;
    var slot, rhs, merge := NextReg(g), NextLabel(g), NextLabel(g) + 1;
    var g0 := EmitDef(g, PtrTo(I1), Alloca(slot, I1));
    var g1 := Emit(g0, Store(v, slot));
    StraightEmit(g, Alloca(slot, I1));
    StraightEmit(g0, Store(v, slot));
    StraightThen(g, g0, g1);
    LiveStraight(g, g1, marks, lo);
    SameLabels(g, v);
    StartTwo(g1, marks, true, if op.And? then CondBr(v, rhs, merge) else CondBr(v, merge, rhs), lo);
  }

  lemma SameLabels(g: Gen, v: Operand)
    requires Placed(g)
    ensures var h := Emit(EmitDef(g, PtrTo(I1), Alloca(NextReg(g), I1)), Store(v, NextReg(g)));
      NextLabel(h) == NextLabel(g) && h.cur == g.cur
  {
  }

  lemma EndLive(g: Gen, marks: Marks, slot: nat, merge: nat, v: Operand, lo: nat)
    requires Live(g, marks, lo) && MayLeadTo(marks, lo, merge)
    ensures Live(EndShortCircuit(g, slot, merge, v).g, marks, lo)
  {
    hide Leads, Straight;
    var g1 := Emit(g, Store(v, slot));
    StraightEmit(g, Store(v, slot));
    LiveStraight(g, g1, marks, lo);
    EmitClosed(g1, marks, Br(merge), lo);
    EnterClosed(Emit(g1, Br(merge)), marks, merge, lo);
    var g3 := SetInsert(Attach(Emit(g1, Br(merge)), merge), merge);
    StraightEmit(g3, Load(NextReg(g3), I1, slot));
    LiveStraight(g3, EndShortCircuit(g, slot, merge, v).g, marks, lo);
  }

  lemma {:induction false} LiveExpr(g: Gen, marks: Marks, e: Expr, lo: nat) returns (later: Marks)
    requires Ready(g, lo) && Live(g, marks, lo) && LowerExpr(g, e).g.ok
    ensures Live(LowerExpr(g, e).g, later, lo) && marks <= later
    decreases e
  {
    hide Ready, Live, Straight, Settled, Tidy, LowerMonadic, LowerStrict;
    later := marks;
    match e
    case Var(x, t) =>
      if Lookup(g.scopes, x).Some? {
        StraightEmit(g, Load(NextReg(g), ToLType(t), Lookup(g.scopes, x).value));
        LiveStraight(g, LowerExpr(g, e).g, marks, lo);
      }
    case BoolLit(_) =>
    case IntLit(_) =>
    case FloatLit(_) =>
    case Binary(_, op, l, r) =>
      if op.And? || op.Or? {
        later := LiveLogical(g, marks, e, lo);
      } else {
        later := LiveStrict(g, marks, e, lo);
      }
    case Unary(op, sub) =>
      ShapeExpr(g, sub, lo);
      later := LiveExpr(g, marks, sub, lo);
      var r := LowerExpr(g, sub);
      if !op.Pos? {
        MonadicStraight(r.g, op, sub.Type(), r.operand.value);
        LiveStraight(r.g, LowerExpr(g, e).g, later, lo);
      }
    case Call(_, _, _) =>
      later := LiveCall(g, marks, e, lo);
  }

  lemma {:induction false} LiveStrict(g: Gen, marks: Marks, e: Expr, lo: nat) returns (later: Marks)
    requires e.Binary? && !e.op.And? && !e.op.Or?
    requires Ready(g, lo) && Live(g, marks, lo) && LowerExpr(g, e).g.ok
    ensures Live(LowerExpr(g, e).g, later, lo) && marks <= later
    decreases e, 0
  {
    hide Ready, Live, Straight, Settled, LowerStrict;
    ShapeExpr(g, e.lhs, lo);
    var r1 := LowerExpr(g, e.lhs);
    ShapeExpr(r1.g, e.rhs, lo);
    var r2 := LowerExpr(r1.g, e.rhs);
    StrictOk(r2.g, IsFloatOp(e.lhs, e.rhs), e.op, r1.operand, r2.operand);
    var marks1 := LiveExpr(g, marks, e.lhs, lo);
    later := LiveExpr(r1.g, marks1, e.rhs, lo);
    StrictStraight(r2.g, IsFloatOp(e.lhs, e.rhs), e.op, r1.operand.value, r2.operand.value);
    LiveStraight(r2.g, LowerExpr(g, e).g, later, lo);
  }

  lemma StrictOk(g: Gen, isFloat: bool, op: BinaryOp, l: Option<Operand>, r: Option<Operand>)
    requires op.IsArithmetic() || op.IsRelation()
    ensures l.Some? && r.Some? ==> LowerStrict(g, isFloat, op, l.value, r.value).g.ok == g.ok
  {
  }

  lemma {:induction false} LiveLogical(g: Gen, marks: Marks, e: Expr, lo: nat) returns (later: Marks)
    requires e.Binary? && (e.op.And? || e.op.Or?)
    requires Ready(g, lo) && Live(g, marks, lo) && LowerExpr(g, e).g.ok
    ensures Live(LowerExpr(g, e).g, later, lo) && marks <= later
    decreases e, 0
  {
    hide Ready, Closed, Settled, Tidy, StartShortCircuit, EndShortCircuit, Terminated, LowerExpr, Extends;
    LogicalGrows(g, e, lo);
    var r1 := LowerExpr(g, e.lhs);
    var v, merge := r1.operand.value, NextLabel(r1.g) + 1;
    var r3 := LowerExpr(StartShortCircuit(r1.g, e.op, v), e.rhs);
    var marks1 := LiveExpr(g, marks, e.lhs, lo);
    StartLive(r1.g, marks1, e.op, v, lo);
    later := LiveExpr(StartShortCircuit(r1.g, e.op, v), marks1 + [true] + [true], e.rhs, lo);
    ClosedLength(r1.g, marks1, lo);
    EndLive(r3.g, later, NextReg(r1.g), merge, r3.operand.value, lo);
  }

  lemma ClosedLength(g: Gen, marks: Marks, lo: nat)
    requires Closed(g, marks, lo)
    ensures |marks| == NextLabel(g)
  {
  }

  lemma {:induction false} LiveCall(g: Gen, marks: Marks, e: Expr, lo: nat) returns (later: Marks)
    requires e.Call? && Ready(g, lo) && Live(g, marks, lo) && LowerExpr(g, e).g.ok
    ensures Live(LowerExpr(g, e).g, later, lo) && marks <= later
    decreases e, 0
  {
    hide Ready, Live, Straight;
    var fn := g.code.fns[g.funcs[e.callee]];
    later := LiveArgs(g, marks, e.args, fn.params, lo);
    var r := LowerArgs(g, e.args, fn.params);
    StraightEmit(r.g, CallFn(NextReg(r.g), g.funcs[e.callee], r.operands));
    LiveStraight(r.g, LowerExpr(g, e).g, later, lo);
  }

  lemma {:induction false} LiveArgs(g: Gen, marks: Marks, args: seq<Expr>, params: seq<LType>, lo: nat) returns (later: Marks)
    requires |args| == |params| && Ready(g, lo) && Live(g, marks, lo) && LowerArgs(g, args, params).g.ok
    ensures Live(LowerArgs(g, args, params).g, later, lo) && marks <= later
    decreases args
  {
    hide Ready, Live, Straight, LowerCast, Settled;
    later := marks;
    if args != [] {
      ShapeExpr(g, args[0], lo);
      var r1 := LowerExpr(g, args[0]);
      ShapeCast(r1.g, r1.operand.value, params[0], lo);
      var r2 := LowerCast(r1.g, r1.operand.value, params[0]);
      ShapeArgs(r2.g, args[1..], params[1..], lo);
      later := LiveExpr(g, marks, args[0], lo);
      CastStraight(r1.g, r1.operand.value, params[0]);
      LiveStraight(r1.g, r2.g, later, lo);
      later := LiveArgs(r2.g, later, args[1..], params[1..], lo);
    }
  }

  // ----- statements -----

  /** `falls`: control can get past. */
  ghost predicate StmtLive(marks: Marks, h: Gen, later: Marks, falls: bool, lo: nat) {
    Closed(h, later, lo) && marks <= later && if falls then Marked(h, later) else Open(h) ==> !Marked(h, later)
  }

  lemma LiveOperand(g: Gen, marks: Marks, e: Expr, lo: nat) returns (later: Marks)
    requires Ready(g, lo) && Live(g, marks, lo)
    ensures var r := LowerExpr(g, e);
      r.g.ok ==> r.operand.Some? && Ready(r.g, lo) && Live(r.g, later, lo) && marks <= later
  {
    hide Live;
    ShapeExpr(g, e, lo);
    later := marks;
    if LowerExpr(g, e).g.ok {
      later := LiveExpr(g, marks, e, lo);
    }
  }

  lemma AssignStraight(g: Gen, x: string, t: TType, from: TType, v: Operand)
    requires Placed(g)
    ensures Straight(g, LowerAssign(g, x, t, from, v))
  {
    hide Straight, LowerCast, EmitDef;
    if Lookup(g.scopes, x).Some? {
      var r := LowerConversion(g, v, from, t);
      ConversionStraight(g, v, from, t);
      StraightEmit(r.g, Store(r.operand.value, Lookup(g.scopes, x).value));
      StraightThen(g, r.g, LowerAssign(g, x, t, from, v));
    } else {
      var slot, lt := NextReg(g), ToLType(t);
      var g1 := EmitDef(g, PtrTo(lt), Alloca(slot, lt));
      StraightEmit(g, Alloca(slot, lt));
      var r := LowerConversion(g1, v, from, t);
      ConversionStraight(g1, v, from, t);
      StraightThen(g, g1, r.g);
      var g2 := Emit(r.g, Store(r.operand.value, slot));
      StraightEmit(r.g, Store(r.operand.value, slot));
      StraightThen(g, r.g, g2);
      Rescoped(g, g2, LowerAssign(g, x, t, from, v).scopes);
    }
  }

  lemma ConversionStraight(g: Gen, v: Operand, from: TType, to: TType)
    ensures Straight(g, LowerConversion(g, v, from, to).g)
  {
    CastStraight(g, v, ToLType(to));
  }

  lemma Rescoped(g: Gen, h: Gen, scopes: seq<Scope>)
    requires Straight(g, h)
    ensures Straight(g, h.(scopes := scopes))
  {
  }

  lemma PrintStraight(g: Gen, t: TType, v: Operand)
    ensures Straight(g, LowerPrint(g, t, v))
  {
    hide Straight;
    var i := if t == FLOAT then FPExt(NextReg(g), v) else Op1(NextReg(g), ZExtI, v);
    StraightEmit(g, i);
    StraightEmit(g, PrintI32(v));
    if t == FLOAT || t == BOOL {
      var h := EmitDef(g, if t == FLOAT then F64T else I32T, i);
      StraightEmit(h, PrintF64(NextReg(g)));
      StraightEmit(h, PrintI32(Reg(NextReg(g))));
      StraightThen(g, h, LowerPrint(g, t, v));
    }
  }

  lemma ReturnStraight(g: Gen, v: Operand)
    requires g.cur < |g.code.fns|
    ensures Straight(g, LowerReturn(g, v))
  {
    hide Straight, LowerCast;
    var r := LowerCast(g, v, g.code.fns[g.cur].ret);
    CastStraight(g, v, g.code.fns[g.cur].ret);
    StraightEmit(r.g, Ret(r.operand.value));
    StraightThen(g, r.g, Emit(r.g, Ret(r.operand.value)));
  }

  lemma PassedStraight(g: Gen, marks: Marks, h: Gen, later: Marks, k: Gen, lo: nat)
    requires Live(h, later, lo) && marks <= later && Straight(h, k)
    ensures StmtLive(marks, k, later, true, lo)
  {
    StraightClosed(h, k, later, lo);
  }

  lemma {:induction false} LiveStmt(g: Gen, marks: Marks, s: Stmt, lo: nat) returns (later: Marks)
    requires Ready(g, lo) && Live(g, marks, lo) && LowerStmt(g, s).ok && g.cur < |g.code.fns|
    ensures StmtLive(marks, LowerStmt(g, s), later, Falls(s), lo)
    decreases s
  {
    hide Live, Closed, Straight, Tidy, LowerExpr, LowerAssign, LowerPrint, LowerReturn;
    later := marks;
    match s
    case Assign(x, t, rhs) =>
      later := LiveOperand(g, marks, rhs, lo);
      var r := LowerExpr(g, rhs);
      AssignStraight(r.g, x, t, rhs.Type(), r.operand.value);
      PassedStraight(g, marks, r.g, later, LowerStmt(g, s), lo);
    case Print(e) =>
      later := LiveOperand(g, marks, e, lo);
      var r := LowerExpr(g, e);
      PrintStraight(r.g, e.Type(), r.operand.value);
      PassedStraight(g, marks, r.g, later, LowerStmt(g, s), lo);
    case Return(e) => later := LiveReturn(g, marks, s, lo);
    case CallStmt(_) => SamePlace(g, marks, lo);
    case Block(_) => later := LiveBlock(g, marks, s, lo);
    case If(_, _, _) => later := LiveIf(g, marks, s, lo);
    case While(_, _) => later := LiveWhile(g, marks, s, lo);
    case DoWhile(_, _) => later := LiveDoWhile(g, marks, s, lo);
  }

  lemma SamePlace(g: Gen, marks: Marks, lo: nat)
    requires Live(g, marks, lo)
    ensures StmtLive(marks, g, marks, true, lo)
  {
  }

  lemma LiveReturn(g: Gen, marks: Marks, s: Stmt, lo: nat) returns (later: Marks)
    requires s.Return? && Ready(g, lo) && Live(g, marks, lo) && LowerStmt(g, s).ok && g.cur < |g.code.fns|
    ensures StmtLive(marks, LowerStmt(g, s), later, false, lo)
  {
    hide Closed, Straight, Tidy, LowerExpr;
    later := LiveOperand(g, marks, s.e, lo);
    ShapeExpr(g, s.e, lo);
    var r := LowerExpr(g, s.e);
    ReturnStraight(r.g, r.operand.value);
    StraightClosed(r.g, LowerStmt(g, s), later, lo);
    ReturnShuts(r.g, r.operand.value, lo);
  }

  lemma ReturnShuts(g: Gen, v: Operand, lo: nat)
    requires Ready(g, lo) && g.cur < |g.code.fns|
    ensures !Open(LowerReturn(g, v))
  {
    ShapeReturn(g, v, lo);
  }

  lemma {:induction false} LiveBlock(g: Gen, marks: Marks, s: Stmt, lo: nat) returns (later: Marks)
    requires s.Block? && Ready(g, lo) && Live(g, marks, lo) && LowerStmt(g, s).ok && g.cur < |g.code.fns|
    ensures StmtLive(marks, LowerStmt(g, s), later, Falls(s), lo)
    decreases s, 0
  {
    hide Leads, Tidy;
    var g0 := g.(scopes := g.scopes + [map[]]);
    RescopedReady(g, g0.scopes, lo);
    later := LiveSeq(g0, marks, s.stmts, lo);
  }

  lemma {:induction false} LiveSeq(g: Gen, marks: Marks, ss: seq<Stmt>, lo: nat) returns (later: Marks)
    requires Ready(g, lo) && Live(g, marks, lo) && LowerSeq(g, ss).ok && g.cur < |g.code.fns|
    ensures StmtLive(marks, LowerSeq(g, ss), later, FallsAll(ss), lo)
    decreases ss
  {
    hide Closed, Grows, Settled, Tidy;
    later := marks;
    if ss != [] {
      var g1 := LowerStmt(g, ss[0]);
      SeqGoesOn(g, ss, lo);
      StmtPlace(g, g1, lo);
      later := LiveStmt(g, marks, ss[0], lo);
      if Falls(ss[0]) {
        FallsOpen(g, ss[0], lo);
        later := LiveSeq(g1, later, ss[1..], lo);
      } else if !Terminated(InsertBlock(g1)) {
        ShapeSeq(g1, ss[1..], lo);
        StmtPlace(g1, LowerSeq(g1, ss[1..]), lo);
        later := DeadVisit(g1, later, LowerSeq(g1, ss[1..]), lo);
      }
    }
  }

  lemma StmtPlace(g: Gen, h: Gen, lo: nat)
    requires StmtShape(g, h, lo)
    ensures Grows(g, h) && Placed(h) && h.cur == g.cur && h.code.fns == g.code.fns
  {
  }

  /** The end of an arm: on to `target` if control gets there, then into the block `next`. */
  lemma JoinClosed(g: Gen, marks: Marks, target: nat, next: nat, lo: nat)
    requires Closed(g, marks, lo) && next < |marks|
    requires Open(g) && Marked(g, marks) ==> MayLeadTo(marks, lo, target)
    requires Placed(g)
    ensures var h := SetInsert(Attach(BranchIfOpen(g, target), next), next);
      Closed(h, marks, lo) && (Marked(h, marks) <==> marks[next])
  {
    hide Leads;
    if !Terminated(InsertBlock(g)) {
      EmitClosed(g, marks, Br(target), lo);
    }
    EnterClosed(BranchIfOpen(g, target), marks, next, lo);
  }

  lemma {:induction false} LiveIf(g: Gen, marks: Marks, s: Stmt, lo: nat) returns (later: Marks)
    requires s.If? && Ready(g, lo) && Live(g, marks, lo) && LowerStmt(g, s).ok && g.cur < |g.code.fns|
    ensures StmtLive(marks, LowerStmt(g, s), later, Falls(s), lo)
    decreases s, 0
  {
    hide Closed, LowerStmt, LowerExpr, Settled, Tidy, Grows, Terminated, Falls, Extends;
    IfSucceeds(g, s, lo);
    var st := StagesOfIf(g, s).value;
    ShapeOfThen(g, s, lo);
    ShapeOfElse(g, s, lo);
    IfFalls(s);
    later := LiveOperand(g, marks, s.cond, lo);
    ClosedLength(st.test.g, later, lo);
    StartThree(st.test.g, later, None, Falls(s), CondBr(st.test.operand.value, st.l, st.l + 1), lo);
    later := later + [true] + [true] + [Falls(s)];
    IfPlace(g, s, st, lo);
    var marks2 := later;
    later := LiveStmt(st.thenStart, later, s.thn, lo);
    JoinClosed(st.thenEnd, later, st.l + 2, st.l + 1, lo);
    if s.els.Some? {
      later := LiveStmt(st.elseStart, later, s.els.value, lo);
    }
    JoinClosed(st.elseEnd, later, st.l + 2, st.l + 2, lo);
    assert marks2 <= later;
  }

  lemma IfFalls(s: Stmt)
    requires s.If?
    ensures Falls(s) <==> Falls(s.thn) || s.els.None? || Falls(s.els.value)
  {
  }

  lemma IfPlace(g: Gen, s: Stmt, st: IfStages, lo: nat)
    requires s.If? && Ready(g, lo) && StagesOfIf(g, s) == Some(st) && ThenShape(g, st, lo) && ElseShape(st, lo)
    requires g.cur < |g.code.fns| && LowerStmt(g, s).ok
    ensures st.thenStart.cur < |st.thenStart.code.fns| && st.thenEnd.ok && Placed(st.thenEnd) && lo <= st.l
    ensures st.elseStart.cur < |st.elseStart.code.fns| && st.elseEnd.ok && Placed(st.elseEnd)
  {
    hide LowerStmt, LowerExpr, Settled, Tidy;
  }

  lemma {:induction false} LiveWhile(g: Gen, marks: Marks, s: Stmt, lo: nat) returns (later: Marks)
    requires s.While? && Ready(g, lo) && Live(g, marks, lo) && LowerStmt(g, s).ok && g.cur < |g.code.fns|
    ensures StmtLive(marks, LowerStmt(g, s), later, true, lo)
    decreases s, 0
  {
    hide Closed, LowerStmt, LowerExpr, Settled, Tidy, Grows, Terminated, Extends;
    WhileSucceeds(g, s, lo);
    var st := StagesOfWhile(g, s).value;
    ShapeOfLoop(g, s, lo);
    ShapeOfLoopEnd(g, s, lo);
    ClosedLength(g, marks, lo);
    StartThree(g, marks, Some(g.cur), true, Br(st.l), lo);
    var marks1 := marks + [true] + [true] + [true];
    later := LiveOperand(st.loopStart, marks1, s.cond, lo);
    var i := CondBr(st.test.operand.value, st.l + 1, st.l + 2);
    WhilePlace(g, s, st, lo);
    EmitClosed(st.test.g, later, i, lo);
    EnterClosed(Emit(st.test.g, i), later, st.l + 1, lo);
    var marks2 := later;
    later := LiveStmt(st.bodyStart, later, s.body, lo);
    JoinClosed(st.bodyEnd, later, st.l, st.l + 2, lo);
    assert marks1 <= marks2 <= later;
  }

  lemma WhilePlace(g: Gen, s: Stmt, st: WhileStages, lo: nat)
    requires s.While? && Ready(g, lo) && StagesOfWhile(g, s) == Some(st) && LoopShape(g, st, lo) && LoopEndShape(g, st, lo)
    requires g.cur < |g.code.fns| && LowerStmt(g, s).ok
    ensures st.bodyStart.cur < |st.bodyStart.code.fns| && st.bodyEnd.ok && Placed(st.bodyEnd) && lo <= st.l
    ensures st.l + 1 < NextLabel(st.test.g)
  {
    hide LowerStmt, LowerExpr, Settled, Tidy;
  }

  lemma {:induction false} LiveDoWhile(g: Gen, marks: Marks, s: Stmt, lo: nat) returns (later: Marks)
    requires s.DoWhile? && Ready(g, lo) && Live(g, marks, lo) && LowerStmt(g, s).ok && g.cur < |g.code.fns|
    ensures StmtLive(marks, LowerStmt(g, s), later, Falls(s), lo)
    decreases s, 0
  {
    hide Closed, LowerExpr, LowerStmt, Settled, Tidy, Grows, Extends, StartDoWhile;
    var l, g0 := NextLabel(g), StartDoWhile(g);
    var g1 := LowerStmt(g0, s.body);
    DoPlace(g, s, lo);
    ClosedLength(g, marks, lo);
    StartDoLive(g, marks, Falls(s.body), lo);
    var marks1 := marks + [true] + [Falls(s.body)];
    later := LiveStmt(g0, marks1, s.body, lo);
    DoEquation(g, s);
    if Terminated(InsertBlock(g1)) {
      EnterClosed(g1, later, l + 1, lo);
    } else {
      var marks2 := later;
      later := TestClosed(g1, later, s.cond, l, lo);
      assert marks1 <= marks2 <= later;
    }
  }

  lemma StartDoLive(g: Gen, marks: Marks, second: bool, lo: nat)
    requires Live(g, marks, lo) && lo <= NextLabel(g)
    ensures Live(StartDoWhile(g), marks + [true] + [second], lo)
  {
    hide Closed;
    StartTwo(g, marks, second, Br(NextLabel(g)), lo);
  }

  lemma DoPlace(g: Gen, s: Stmt, lo: nat)
    requires s.DoWhile? && Ready(g, lo) && LowerStmt(g, s).ok && g.cur < |g.code.fns|
    ensures var g0 := StartDoWhile(g);
      var g1 := LowerStmt(g0, s.body);
      && Ready(g0, lo) && g0.cur < |g0.code.fns| && g1.ok && lo <= NextLabel(g) && NextLabel(g) + 1 < NextLabel(g1)
      && (Falls(s) <==> Falls(s.body)) && Placed(g1)
      && (Falls(s.body) ==> !Terminated(InsertBlock(g1)))
      && (!Terminated(InsertBlock(g1)) ==>
            Ready(g1, lo) && LowerExpr(g1, s.cond).g.ok && LowerExpr(g1, s.cond).operand.Some?)
  {
    hide Settled, Tidy, StartDoWhile, LowerExpr, Extends;
    var g0 := StartDoWhile(g);
    ShapeStartDoWhile(g, lo);
    ShapeStmt(g0, s.body, lo);
    var g1 := LowerStmt(g0, s.body);
    ShapeNested(g, g0, g1, {NextLabel(g) + 1}, lo);
    if !Terminated(InsertBlock(g1)) {
      ShapeExpr(g1, s.cond, lo);
    } else if Falls(s.body) {
      FallsOpen(g0, s.body, lo);
    }
  }

  /** The test of a loop, whether or not paths lead to it. */
  lemma TestClosed(g: Gen, marks: Marks, c: Expr, l: nat, lo: nat) returns (later: Marks)
    requires Ready(g, lo) && Closed(g, marks, lo) && LowerExpr(g, c).g.ok && LowerExpr(g, c).operand.Some?
    requires l + 1 < |marks| && (Marked(g, marks) ==> MayLeadTo(marks, lo, l) && marks[l + 1])
    ensures var r := LowerExpr(g, c);
      var h := SetInsert(Attach(Emit(r.g, CondBr(r.operand.value, l, l + 1)), l + 1), l + 1);
      Closed(h, later, lo) && marks <= later && h.insert == l + 1
  {
    hide Leads, Settled, Tidy, LowerExpr;
    var r := LowerExpr(g, c);
    ShapeExpr(g, c, lo);
    if Marked(g, marks) {
      later := LiveExpr(g, marks, c, lo);
    } else {
      later := DeadVisit(g, marks, r.g, lo);
    }
    EmitClosed(r.g, later, CondBr(r.operand.value, l, l + 1), lo);
    EnterClosed(Emit(r.g, CondBr(r.operand.value, l, l + 1)), later, l + 1, lo);
  }

  // ----- functions -----

  lemma {:induction false} ParamsLive(g: Gen, marks: Marks, ps: seq<Param>, lo: nat)
    requires Live(g, marks, lo)
    ensures Live(LowerParams(g, ps), marks, lo)
    decreases ps
  {
    hide Closed, Straight, LowerParam;
    if ps != [] {
      var n := |ps| - 1;
      ParamsLive(g, marks, ps[..n], lo);
      ParamLive(LowerParams(g, ps[..n]), marks, ps[n], n, lo);
    }
  }

  lemma ParamLive(g: Gen, marks: Marks, p: Param, i: nat, lo: nat)
    requires Live(g, marks, lo)
    ensures Live(LowerParam(g, p, i), marks, lo)
  {
    hide Closed, Straight, EmitDef;
    var slot, t := NextReg(g), ToLType(p.ty);
    var g1 := EmitDef(g, PtrTo(t), Alloca(slot, t));
    StraightEmit(g, Alloca(slot, t));
    StraightEmit(g1, Store(Arg(i), slot));
    var g2 := Emit(g1, Store(Arg(i), slot));
    StraightThen(g, g1, g2);
    Rescoped(g, g2, LowerParam(g, p, i).scopes);
    LiveStraight(g, LowerParam(g, p, i), marks, lo);
  }

  /** Marks for the body of a function: the entry is marked, and if control cannot get past the
      body the end of it is not. */
  lemma FunctionMarked(g: Gen, d: FunctionDef) returns (marks: Marks)
    requires LowerFunction(g, d).ok
    ensures Closed(BodyEnd(g, d), marks, NextLabel(g)) && NextLabel(g) < |marks| && marks[NextLabel(g)]
    ensures !Falls(d.body) && Open(BodyEnd(g, d)) ==> !Marked(BodyEnd(g, d), marks)
  {
    hide Closed, LowerParams, LowerStmt, Settled, Tidy, Falls, StartFunction;
    var lo, g0, g1 := NextLabel(g), StartFunction(g, d), BodyStart(g, d);
    ShapeBody(g, d);
    ShapeStartFunction(g, d);
    marks := seq(lo, l => false) + [true];
    StartMarked(g, d);
    ParamsLive(g0, marks, d.params, lo);
    var first := marks;
    marks := LiveStmt(g1, marks, d.body, lo);
    assert first <= marks;
  }

  lemma StartMarked(g: Gen, d: FunctionDef)
    ensures Live(StartFunction(g, d), seq(NextLabel(g), l => false) + [true], NextLabel(g))
  {
  }

  // ----- marks answer for every path -----

  /** Every path from a marked block stays in marked blocks; `c` is the marked code, one block
      perhaps with an `unreachable` at its end. */
  lemma {:induction false} PathStaysMarked(c: Code, g: Gen, marks: Marks, lo: nat, path: seq<nat>)
    requires path != [] && Path(c, path) && Closed(g, marks, lo) && |marks| <= |c.blocks| && MayLeadTo(marks, lo, path[0])
    requires forall l :: 0 <= l < |marks| ==> SameOrEnded(g.code.blocks[l].code, c.blocks[l].code)
    ensures MayLeadTo(marks, lo, path[|path| - 1])
    decreases path
  {
    var n := |path| - 1;
    if n > 0 {
      PathStaysMarked(c, g, marks, lo, path[..n]);
      var m := path[n - 1];
      if c.blocks[m].code == g.code.blocks[m].code && g.code.blocks[m].code != [] {
        assert Leads(g.code.blocks, marks, lo, m, |c.blocks[m].code| - 1);
      }
    }
  }
}
