/** Every visit keeps the shape: the induction over trees for the predicates of `Shape`. */
module Visits {
  import opened Wrappers
  import opened Ast
  import opened Ir
  import opened Lowering
  import opened Shape

  ghost predicate Ready(g: Gen, lo: nat) {
    Open(g) && Tidy(g, lo) && lo <= g.insert
  }

  /** What a visited expression leaves: an operand unless it failed, the scopes as they were, and
      an insert block that can be appended to. */
  ghost predicate ExprShape(g: Gen, r: Lowered, lo: nat) {
    && Grows(g, r.g) && Ready(r.g, lo) && r.g.scopes == g.scopes
    && (r.g.ok ==> r.operand.Some? && Settled(g, r.g, {}))
  }

  ghost predicate ArgsShape(g: Gen, r: LoweredArgs, n: nat, lo: nat) {
    && Grows(g, r.g) && Ready(r.g, lo) && r.g.scopes == g.scopes
    && (r.g.ok ==> |r.operands| == n && Settled(g, r.g, {}))
  }

  lemma ShapeDef(g: Gen, t: LType, i: Instr, lo: nat)
    requires Ready(g, lo) && !i.IsTerminator()
    ensures Underway(g, EmitDef(g, t, i), {}, lo) && Open(EmitDef(g, t, i))
    ensures ExprShape(g, Lowered(EmitDef(g, t, i), Some(Reg(NextReg(g)))), lo)
  {
    UnderwayStart(g, {}, lo);
    UnderwayDef(g, g, t, i, {}, lo);
  }

  lemma ShapeCast(g: Gen, op: Operand, to: LType, lo: nat)
    requires Ready(g, lo)
    ensures Underway(g, LowerCast(g, op, to).g, {}, lo)
    ensures ExprShape(g, LowerCast(g, op, to), lo)
  {
    UnderwayStart(g, {}, lo);
    if OperandType(g, op) != to {
      ShapeDef(g, to, Op1(NextReg(g), CastTo(to), op), lo);
    }
  }

  /** One visit after another. */
  lemma ShapeThen(g: Gen, g1: Gen, r: Lowered, lo: nat)
    requires Ready(g, lo) && Grows(g, g1) && Ready(g1, lo) && g1.scopes == g.scopes
    requires g1.ok ==> Settled(g, g1, {})
    requires ExprShape(g1, r, lo)
    ensures ExprShape(g, r, lo)
  {
    GrowsTransitive(g, g1, r.g);
    if r.g.ok {
      SettledTransitive(g, g1, r.g, {});
    }
  }

  lemma ShapeStrict(g: Gen, isFloat: bool, op: BinaryOp, l: Operand, r: Operand, lo: nat)
    requires Ready(g, lo) && (op.IsArithmetic() || op.IsRelation())
    ensures ExprShape(g, LowerStrict(g, isFloat, op, l, r), lo)
  {
    var l1 := if isFloat then LowerCast(g, l, F32T) else Lowered(g, Some(l));
    var r1 := if isFloat then LowerCast(l1.g, r, F32T) else Lowered(l1.g, Some(r));
    UnderwayStart(g, {}, lo);
    if isFloat {
      ShapeCast(g, l, F32T, lo);
      ShapeCast(l1.g, r, F32T, lo);
      ShapeThen(g, l1.g, r1, lo);
    }
    var i := Op2(NextReg(r1.g), SelectOp2(isFloat, op), l1.operand.value, r1.operand.value);
    ShapeDef(r1.g, ResultType(isFloat, op), i, lo);
    ShapeThen(g, r1.g, LowerStrict(g, isFloat, op, l, r), lo);
  }

  lemma ShapeMonadic(g: Gen, op: UnaryOp, t: TType, v: Operand, lo: nat)
    requires Ready(g, lo) && !op.Pos?
    ensures ExprShape(g, LowerMonadic(g, op, t, v), lo)
  {
    ShapeDef(g, I1, Op1(NextReg(g), NotI, v), lo);
    ShapeDef(g, F32T, Op1(NextReg(g), NegF, v), lo);
    ShapeDef(g, I32T, Op1(NextReg(g), NegI, v), lo);
    UnderwayStart(g, {}, lo);
    GrowsError(g, g);
    assert Tidy(Error(g), lo) by {
      forall m, k | lo <= m < |g.code.blocks| && 0 <= k < |g.code.blocks[m].code|
        ensures TidyInstr(Error(g), lo, m, k)
      {
        assert TidyInstr(g, lo, m, k);
      }
    }
  }

  lemma ShapeError(g: Gen, lo: nat)
    requires Ready(g, lo)
    ensures ExprShape(g, Lowered(Error(g), None), lo)
  {
    GrowsError(g, g);
    forall m, k | lo <= m < |g.code.blocks| && 0 <= k < |g.code.blocks[m].code|
      ensures TidyInstr(Error(g), lo, m, k)
    {
      assert TidyInstr(g, lo, m, k);
    }
  }

  /** From a finished block into an attached empty one. */
  lemma ShapeEnter(b: Gen, g: Gen, l: nat, pending: set<nat>, rest: set<nat>, lo: nat)
    requires Underway(b, g, pending, lo) && g.insert < |g.code.blocks| && Closed(g, g.insert)
    requires |b.code.blocks| <= l < |g.code.blocks| && l != g.insert
    requires g.code.blocks[l] == BasicBlock([], Some(g.cur)) && pending <= rest + {l}
    ensures Underway(b, SetInsert(g, l), rest, lo) && Ready(SetInsert(g, l), lo)
    ensures InsertBlock(SetInsert(g, l)) == []
  {
    assert Attach(g, l).code.blocks == g.code.blocks;
    assert Attach(g, l) == g;
    UnderwaySwitch(b, g, l, pending, rest, lo);
  }

  lemma ShapeSaveLeft(g: Gen, v: Operand, lo: nat)
    requires Ready(g, lo)
    ensures var g1 := Emit(EmitDef(g, PtrTo(I1), Alloca(NextReg(g), I1)), Store(v, NextReg(g)));
      && Underway(g, g1, {NextLabel(g), NextLabel(g) + 1}, lo) && Ready(g1, lo) && g1.scopes == g.scopes
      && NextLabel(g1) == NextLabel(g) && g1.ok == g.ok && g1.cur == g.cur
  {
    var p := {NextLabel(g), NextLabel(g) + 1};
    UnderwayStart(g, p, lo);
    UnderwayDef(g, g, PtrTo(I1), Alloca(NextReg(g), I1), p, lo);
    UnderwayEmit(g, EmitDef(g, PtrTo(I1), Alloca(NextReg(g), I1)), Store(v, NextReg(g)), p, lo);
  }

  /** Two new blocks, the first attached and entered, the second waiting. */
  lemma ShapeStart2(b: Gen, g: Gen, i: Instr, lo: nat)
    requires Underway(b, g, {NextLabel(g), NextLabel(g) + 1}, lo) && Ready(g, lo)
    requires NextLabel(g) >= NextLabel(b)
    requires i.IsTerminator() && forall t :: t in i.Targets() ==> lo <= t <= NextLabel(g) + 1
    ensures var l := NextLabel(g);
      var h := SetInsert(Emit(CreateBlock(CreateBlock(g, Some(g.cur)), None), i), l);
      && Underway(b, h, {l + 1}, lo) && Ready(h, lo) && h.insert == l && NextLabel(h) == l + 2
      && h.scopes == g.scopes && h.ok == g.ok && h.code.blocks[l + 1] == BasicBlock([], None)
  {
    var l := NextLabel(g);
    var p := {l, l + 1};
    UnderwayCreate(b, g, Some(g.cur), p, lo);
    var g1 := CreateBlock(g, Some(g.cur));
    UnderwayCreate(b, g1, None, p, lo);
    var g2 := CreateBlock(g1, None);
    UnderwayEmit(b, g2, i, p, lo);
    ShapeEnter(b, Emit(g2, i), l, p, {l + 1}, lo);
  }

  /** The right side's block is the insert block, empty; the merge block waits, empty. */
  lemma ShapeStartShortCircuit(g: Gen, op: BinaryOp, v: Operand, lo: nat)
    requires Ready(g, lo)
    ensures var h := StartShortCircuit(g, op, v);
      var merge := NextLabel(g) + 1;
      && Underway(g, h, {merge}, lo) && Ready(h, lo) && h.scopes == g.scopes && h.ok == g.ok
      && h.insert == NextLabel(g) && NextLabel(h) == merge + 1
      && h.code.blocks[merge] == BasicBlock([], None)
  {
    hide Settled, Tidy;
    var slot, rhs := NextReg(g), NextLabel(g);
    var g1 := Emit(EmitDef(g, PtrTo(I1), Alloca(slot, I1)), Store(v, slot));
    ShapeSaveLeft(g, v, lo);
    var i := if op.And? then CondBr(v, rhs, rhs + 1) else CondBr(v, rhs + 1, rhs);
    ShapeStart2(g, g1, i, lo);
  }

  lemma ShapeEndShortCircuit(b: Gen, g: Gen, slot: nat, merge: nat, v: Operand, lo: nat)
    requires Underway(b, g, {merge}, lo) && Open(g) && g.scopes == b.scopes
    requires |b.code.blocks| <= merge < |g.code.blocks| && g.code.blocks[merge] == BasicBlock([], None)
    ensures ExprShape(b, EndShortCircuit(g, slot, merge, v), lo)
  {
    UnderwayEmit(b, g, Store(v, slot), {merge}, lo);
    var g1 := Emit(g, Store(v, slot));
    UnderwayEmit(b, g1, Br(merge), {merge}, lo);
    var g2 := Emit(g1, Br(merge));
    UnderwaySwitch(b, g2, merge, {merge}, {}, lo);
    var g3 := SetInsert(Attach(g2, merge), merge);
    UnderwayDef(b, g3, I1, Load(NextReg(g3), I1, slot), {}, lo);
  }

  lemma ShapeShortCircuit(g: Gen, op: BinaryOp, v: Operand, r: Lowered, lo: nat)
    requires Ready(g, lo) && ExprShape(StartShortCircuit(g, op, v), r, lo)
    ensures (!r.g.ok || r.operand.None?) ==> ExprShape(g, r.(operand := None), lo)
    ensures r.g.ok && r.operand.Some? ==>
      ExprShape(g, EndShortCircuit(r.g, NextReg(g), NextLabel(g) + 1, r.operand.value), lo)
  {
    hide Settled, Tidy;
    ShapeStartShortCircuit(g, op, v, lo);
    var h := StartShortCircuit(g, op, v);
    GrowsTransitive(g, h, r.g);
    if r.g.ok && r.operand.Some? {
      UnderwayVisit(g, h, r.g, {NextLabel(g) + 1}, lo);
      ShapeEndShortCircuit(g, r.g, NextReg(g), NextLabel(g) + 1, r.operand.value, lo);
    }
  }

  lemma {:induction false} ShapeExpr(g: Gen, e: Expr, lo: nat)
    requires Ready(g, lo)
    ensures ExprShape(g, LowerExpr(g, e), lo)
    decreases e
  {
    UnderwayStart(g, {}, lo);
    ShapeError(g, lo);
    match e
    case Var(x, t) =>
      if Lookup(g.scopes, x).Some? {
        ShapeDef(g, ToLType(t), Load(NextReg(g), ToLType(t), Lookup(g.scopes, x).value), lo);
      }
    case BoolLit(_) =>
    case IntLit(_) =>
    case FloatLit(_) =>
    case Binary(_, op, l, r) => ShapeBinary(g, e, lo);
    case Unary(op, sub) =>
      ShapeExpr(g, sub, lo);
      var g1 := LowerExpr(g, sub);
      if !op.Pos? && g1.g.ok {
        ShapeMonadic(g1.g, op, sub.Type(), g1.operand.value, lo);
        ShapeThen(g, g1.g, LowerMonadic(g1.g, op, sub.Type(), g1.operand.value), lo);
      }
    case Call(f, args, _) => ShapeCall(g, e, lo);
  }

  lemma {:induction false} ShapeBinary(g: Gen, e: Expr, lo: nat)
    requires Ready(g, lo) && e.Binary?
    ensures ExprShape(g, LowerExpr(g, e), lo)
    decreases e, 0
  {
    hide Grows, Settled, Ready, Underway, Open;
    var op, r := e.op, e.rhs;
    ShapeExpr(g, e.lhs, lo);
    var g1 := LowerExpr(g, e.lhs);
    if g1.g.ok {
      if op.And? || op.Or? {
        var g2 := StartShortCircuit(g1.g, op, g1.operand.value);
        ShapeStartShortCircuit(g1.g, op, g1.operand.value, lo);
        ShapeExpr(g2, r, lo);
        ShapeShortCircuit(g1.g, op, g1.operand.value, LowerExpr(g2, r), lo);
        ShapeThen(g, g1.g, LowerExpr(g, e), lo);
      } else {
        ShapeExpr(g1.g, r, lo);
        var g2 := LowerExpr(g1.g, r);
        ShapeThen(g, g1.g, g2, lo);
        if g2.g.ok {
          ShapeStrict(g2.g, IsFloatOp(e.lhs, r), op, g1.operand.value, g2.operand.value, lo);
          ShapeThen(g, g2.g, LowerExpr(g, e), lo);
        }
      }
    }
  }

  lemma {:induction false} ShapeCall(g: Gen, e: Expr, lo: nat)
    requires Ready(g, lo) && e.Call?
    ensures ExprShape(g, LowerExpr(g, e), lo)
    decreases e, 0
  {
    ShapeError(g, lo);
    if e.callee in g.funcs && g.funcs[e.callee] < |g.code.fns| {
      var fn := g.code.fns[g.funcs[e.callee]];
      if |e.args| == |fn.params| {
        ShapeArgs(g, e.args, fn.params, lo);
        var g1 := LowerArgs(g, e.args, fn.params);
        if g1.g.ok || e.args == [] {
          ShapeDef(g1.g, fn.ret, CallFn(NextReg(g1.g), g.funcs[e.callee], g1.operands), lo);
          ShapeThen(g, g1.g, LowerExpr(g, e), lo);
        }
      }
    }
  }

  lemma {:induction false} ShapeArgs(g: Gen, args: seq<Expr>, params: seq<LType>, lo: nat)
    requires Ready(g, lo) && |args| == |params|
    ensures ArgsShape(g, LowerArgs(g, args, params), |args|, lo)
    decreases args
  {
    if args == [] {
      UnderwayStart(g, {}, lo);
    } else {
      ShapeExpr(g, args[0], lo);
      var g1 := LowerExpr(g, args[0]);
      if g1.g.ok {
        var g2 := LowerCast(g1.g, g1.operand.value, params[0]);
        ShapeCast(g1.g, g1.operand.value, params[0], lo);
        ShapeThen(g, g1.g, g2, lo);
        ShapeArgs(g2.g, args[1..], params[1..], lo);
        var g3 := LowerArgs(g2.g, args[1..], params[1..]);
        GrowsTransitive(g, g2.g, g3.g);
        if g3.g.ok {
          SettledTransitive(g, g2.g, g3.g, {});
        }
      }
    }
  }

  // ----- statements -----

  ghost predicate StmtShape(g: Gen, h: Gen, lo: nat) {
    && Grows(g, h) && Tidy(h, lo) && Placed(h) && lo <= h.insert
    && (h.ok ==> Settled(g, h, {}))
  }

  /** A block nothing has been written to and that no function owns yet. */
  ghost predicate Waiting(b: Gen, g: Gen, l: nat) {
    |b.code.blocks| <= l < |g.code.blocks| && g.code.blocks[l] == BasicBlock([], None)
  }

  lemma WaitingVisit(b: Gen, g: Gen, h: Gen, l: nat)
    requires Grows(b, g) && Waiting(b, g, l) && Placed(g) && Grows(g, h)
    ensures Waiting(b, h, l)
  {
  }

  lemma ShapeBranch(b: Gen, g: Gen, target: nat, pending: set<nat>, lo: nat)
    requires Underway(b, g, pending, lo) && Placed(g)
    requires lo <= target < |g.code.blocks|
    ensures var h := BranchIfOpen(g, target);
      && Underway(b, h, pending, lo) && h.insert == g.insert && |h.code.blocks| == |g.code.blocks|
      && Closed(h, h.insert)
      && forall l :: 0 <= l < |g.code.blocks| && l != g.insert ==> h.code.blocks[l] == g.code.blocks[l]
  {
    if !Terminated(InsertBlock(g)) {
      UnderwayEmit(b, g, Br(target), pending, lo);
    }
  }

  /** Leaving a finished block for a waiting one. */
  lemma ShapeSwitch(b: Gen, g: Gen, l: nat, pending: set<nat>, rest: set<nat>, lo: nat)
    requires Underway(b, g, pending, lo)
    requires g.insert < |g.code.blocks| && Closed(g, g.insert)
    requires Waiting(b, g, l) && pending <= rest + {l}
    ensures var h := SetInsert(Attach(g, l), l);
      && Underway(b, h, rest, lo) && Ready(h, lo) && InsertBlock(h) == []
      && |h.code.blocks| == |g.code.blocks|
      && forall k :: 0 <= k < |g.code.blocks| && k != l ==> h.code.blocks[k] == g.code.blocks[k]
  {
    UnderwaySwitch(b, g, l, pending, rest, lo);
  }

  /** Three new blocks; `parents` says which of the first two are attached from the start. */
  lemma ShapeStart3(g: Gen, second: Option<nat>, i: Instr, lo: nat)
    requires Ready(g, lo) && i.IsTerminator()
    requires forall t :: t in i.Targets() ==> lo <= t <= NextLabel(g) + 2
    ensures var l := NextLabel(g);
      var h := Emit(CreateBlock(CreateBlock(CreateBlock(g, Some(g.cur)), second), None), i);
      && Underway(g, h, {l, l + 1, l + 2}, lo) && h.insert == g.insert && Closed(h, g.insert)
      && NextLabel(h) == l + 3 && h.scopes == g.scopes && h.ok == g.ok
      && h.code.blocks[l] == BasicBlock([], Some(g.cur))
      && h.code.blocks[l + 1] == BasicBlock([], second)
      && h.code.blocks[l + 2] == BasicBlock([], None)
  {
    var l := NextLabel(g);
    var p := {l, l + 1, l + 2};
    UnderwayStart(g, p, lo);
    UnderwayCreate(g, g, Some(g.cur), p, lo);
    var g1 := CreateBlock(g, Some(g.cur));
    UnderwayCreate(g, g1, second, p, lo);
    var g2 := CreateBlock(g1, second);
    UnderwayCreate(g, g2, None, p, lo);
    UnderwayEmit(g, CreateBlock(g2, None), i, p, lo);
  }

  lemma StmtThen(g: Gen, g1: Gen, h: Gen, lo: nat)
    requires Ready(g, lo) && Grows(g, g1) && (g1.ok ==> Settled(g, g1, {}))
    requires StmtShape(g1, h, lo)
    ensures StmtShape(g, h, lo)
  {
    GrowsTransitive(g, g1, h);
    if h.ok {
      SettledTransitive(g, g1, h, {});
    }
  }

  /** A nested statement, inside a statement that started in `b`. */
  lemma ShapeNested(b: Gen, g: Gen, h: Gen, pending: set<nat>, lo: nat)
    requires Underway(b, g, pending, lo) && Ready(g, lo) && StmtShape(g, h, lo)
    ensures Grows(b, h)
    ensures h.ok ==> Underway(b, h, pending, lo)
    ensures forall l :: l in pending && Waiting(b, g, l) ==> Waiting(b, h, l)
  {
    GrowsTransitive(b, g, h);
    if h.ok {
      UnderwayVisit(b, g, h, pending, lo);
    }
    forall l | l in pending && Waiting(b, g, l) ensures Waiting(b, h, l) {
      WaitingVisit(b, g, h, l);
    }
  }

  lemma ExprIsStmt(g: Gen, r: Lowered, lo: nat)
    requires ExprShape(g, r, lo)
    ensures StmtShape(g, r.g, lo)
  {
  }

  lemma ExprNested(b: Gen, g: Gen, r: Lowered, pending: set<nat>, lo: nat)
    requires Underway(b, g, pending, lo) && Ready(g, lo) && ExprShape(g, r, lo)
    ensures Grows(b, r.g) && StmtShape(g, r.g, lo)
    ensures r.g.ok ==> Underway(b, r.g, pending, lo)
    ensures forall l :: l in pending && Waiting(b, g, l) ==> Waiting(b, r.g, l)
  {
    ShapeNested(b, g, r.g, pending, lo);
  }

  /** The end of one branch: join `target`, then go on in `next`. */
  lemma ShapeJoin(b: Gen, g: Gen, target: nat, next: nat, pending: set<nat>, rest: set<nat>, lo: nat)
    requires Underway(b, g, pending, lo) && Placed(g) && lo <= target < |g.code.blocks|
    requires Waiting(b, g, next) && pending <= rest + {next} && rest <= pending
    ensures var h := SetInsert(Attach(BranchIfOpen(g, target), next), next);
      && Underway(b, h, rest, lo) && Ready(h, lo) && h.insert == next
      && h.ok == g.ok && h.scopes == g.scopes && InsertBlock(h) == []
      && (forall l :: l in rest && l != next && Waiting(b, g, l) ==> Waiting(b, h, l))
  {
    ShapeBranch(b, g, target, pending, lo);
    ShapeSwitch(b, BranchIfOpen(g, target), next, pending, rest, lo);
  }

  lemma ShapeStartIf(g: Gen, c: Operand, lo: nat)
    requires Ready(g, lo)
    ensures var l, h := NextLabel(g), StartIf(g, c);
      && Underway(g, h, {l + 1, l + 2}, lo) && Ready(h, lo) && h.insert == l && NextLabel(h) == l + 3
      && h.scopes == g.scopes && h.ok == g.ok && Waiting(g, h, l + 1) && Waiting(g, h, l + 2)
      && InsertBlock(h) == []
  {
    var l := NextLabel(g);
    ShapeStart3(g, None, CondBr(c, l, l + 1), lo);
    var h := Emit(CreateBlock(CreateBlock(CreateBlock(g, Some(g.cur)), None), None), CondBr(c, l, l + 1));
    ShapeEnter(g, h, l, {l, l + 1, l + 2}, {l + 1, l + 2}, lo);
  }

  lemma ShapeStartWhile(g: Gen, lo: nat)
    requires Ready(g, lo)
    ensures var l, h := NextLabel(g), StartWhile(g);
      && Underway(g, h, {l + 1, l + 2}, lo) && Ready(h, lo) && h.insert == l && NextLabel(h) == l + 3
      && h.scopes == g.scopes && h.ok == g.ok
      && h.code.blocks[l + 1] == BasicBlock([], Some(g.cur)) && Waiting(g, h, l + 2) && InsertBlock(h) == []
  {
    var l := NextLabel(g);
    ShapeStart3(g, Some(g.cur), Br(l), lo);
    var h := Emit(CreateBlock(CreateBlock(CreateBlock(g, Some(g.cur)), Some(g.cur)), None), Br(l));
    ShapeEnter(g, h, l, {l, l + 1, l + 2}, {l + 1, l + 2}, lo);
  }

  lemma ShapeStartDoWhile(g: Gen, lo: nat)
    requires Ready(g, lo)
    ensures var l, h := NextLabel(g), StartDoWhile(g);
      && Underway(g, h, {l + 1}, lo) && Ready(h, lo) && h.insert == l && NextLabel(h) == l + 2
      && h.scopes == g.scopes && h.ok == g.ok && Waiting(g, h, l + 1) && InsertBlock(h) == []
  {
    var l := NextLabel(g);
    UnderwayStart(g, {l, l + 1}, lo);
    ShapeStart2(g, g, Br(l), lo);
  }

  lemma ShapeConversion(g: Gen, v: Operand, from: TType, to: TType, lo: nat)
    requires Ready(g, lo)
    ensures ExprShape(g, LowerConversion(g, v, from, to), lo)
  {
    UnderwayStart(g, {}, lo);
    ShapeCast(g, v, ToLType(to), lo);
  }

  lemma ShapeEmit(g: Gen, i: Instr, lo: nat)
    requires Ready(g, lo) && i.Targets() == {}
    ensures StmtShape(g, Emit(g, i), lo)
    ensures !i.IsTerminator() ==> Open(Emit(g, i))
  {
    UnderwayStart(g, {}, lo);
    UnderwayEmit(g, g, i, {}, lo);
  }

  lemma ShapeAssign(g: Gen, x: string, t: TType, from: TType, v: Operand, lo: nat)
    requires Ready(g, lo)
    ensures StmtShape(g, LowerAssign(g, x, t, from, v), lo) && Open(LowerAssign(g, x, t, from, v))
  {
    var lt := ToLType(t);
    match Lookup(g.scopes, x)
    case Some(slot) =>
      var c := LowerConversion(g, v, from, t);
      ShapeConversion(g, v, from, t, lo);
      ShapeEmit(c.g, Store(c.operand.value, slot), lo);
      StmtThen(g, c.g, Emit(c.g, Store(c.operand.value, slot)), lo);
    case None =>
      var slot := NextReg(g);
      var g1 := EmitDef(g, PtrTo(lt), Alloca(slot, lt));
      ShapeDef(g, PtrTo(lt), Alloca(slot, lt), lo);
      var c := LowerConversion(g1, v, from, t);
      ShapeConversion(g1, v, from, t, lo);
      var g2 := Emit(c.g, Store(c.operand.value, slot));
      ShapeEmit(c.g, Store(c.operand.value, slot), lo);
      StmtThen(g1, c.g, g2, lo);
      StmtThen(g, g1, g2, lo);
      ShapeRescoped(g, g2, Declare(g2.scopes, x, slot), lo);
  }

  lemma ShapeRescoped(g: Gen, h: Gen, scopes: seq<Scope>, lo: nat)
    requires StmtShape(g, h, lo)
    ensures StmtShape(g, h.(scopes := scopes), lo)
  {
    var k := h.(scopes := scopes);
    forall l, i | lo <= l < |k.code.blocks| && 0 <= i < |k.code.blocks[l].code|
      ensures TidyInstr(k, lo, l, i)
    {
      assert TidyInstr(h, lo, l, i);
    }
    if h.ok {
      forall l: nat | Written(g, k, l) && l != k.insert ensures Closed(k, l) {
        assert Written(g, h, l);
      }
    }
  }

  lemma ShapePrint(g: Gen, t: TType, v: Operand, lo: nat)
    requires Ready(g, lo)
    ensures StmtShape(g, LowerPrint(g, t, v), lo) && Open(LowerPrint(g, t, v))
  {
    if t == FLOAT {
      var g1 := EmitDef(g, F64T, FPExt(NextReg(g), v));
      ShapeDef(g, F64T, FPExt(NextReg(g), v), lo);
      ShapeEmit(g1, PrintF64(NextReg(g)), lo);
      StmtThen(g, g1, LowerPrint(g, t, v), lo);
    } else if t == BOOL {
      var g1 := EmitDef(g, I32T, Op1(NextReg(g), ZExtI, v));
      ShapeDef(g, I32T, Op1(NextReg(g), ZExtI, v), lo);
      ShapeEmit(g1, PrintI32(Reg(NextReg(g))), lo);
      StmtThen(g, g1, LowerPrint(g, t, v), lo);
    } else {
      ShapeEmit(g, PrintI32(v), lo);
    }
  }

  lemma ShapeReturn(g: Gen, v: Operand, lo: nat)
    requires Ready(g, lo)
    ensures StmtShape(g, LowerReturn(g, v), lo)
  {
    UnderwayStart(g, {}, lo);
    if g.cur < |g.code.fns| {
      var c := LowerCast(g, v, g.code.fns[g.cur].ret);
      ShapeCast(g, v, g.code.fns[g.cur].ret, lo);
      ShapeEmit(c.g, Ret(c.operand.value), lo);
      StmtThen(g, c.g, Emit(c.g, Ret(c.operand.value)), lo);
    }
  }

  lemma {:induction false} ShapeStmt(g: Gen, s: Stmt, lo: nat)
    requires Ready(g, lo)
    ensures StmtShape(g, LowerStmt(g, s), lo)
    decreases s
  {
    UnderwayStart(g, {}, lo);
    match s
    case Assign(x, t, rhs) =>
      ShapeExpr(g, rhs, lo);
      var g1 := LowerExpr(g, rhs);
      if g1.g.ok {
        ShapeAssign(g1.g, x, t, rhs.Type(), g1.operand.value, lo);
        StmtThen(g, g1.g, LowerStmt(g, s), lo);
      }
    case Print(e) =>
      ShapeExpr(g, e, lo);
      var g1 := LowerExpr(g, e);
      if g1.g.ok {
        ShapePrint(g1.g, e.Type(), g1.operand.value, lo);
        StmtThen(g, g1.g, LowerStmt(g, s), lo);
      }
    case Return(e) =>
      ShapeExpr(g, e, lo);
      var g1 := LowerExpr(g, e);
      if g1.g.ok {
        ShapeReturn(g1.g, g1.operand.value, lo);
        StmtThen(g, g1.g, LowerStmt(g, s), lo);
      }
    case CallStmt(_) =>
    case Block(ss) => ShapeBlock(g, s, lo);
    case If(_, _, _) => ShapeIf(g, s, lo);
    case While(_, _) => ShapeWhile(g, s, lo);
    case DoWhile(_, _) => ShapeDoWhile(g, s, lo);
  }

  lemma {:induction false} ShapeBlock(g: Gen, s: Stmt, lo: nat)
    requires Ready(g, lo) && s.Block?
    ensures StmtShape(g, LowerStmt(g, s), lo)
    decreases s, 0
  {
    var g0 := g.(scopes := g.scopes + [map[]]);
    UnderwayStart(g, {}, lo);
    ShapeRescoped(g, g, g.scopes + [map[]], lo);
    assert Ready(g0, lo);
    ShapeSeq(g0, s.stmts, lo);
    var g1 := LowerSeq(g0, s.stmts);
    StmtThen(g, g0, g1, lo);
    ShapeRescoped(g, g1, Popped(g1.scopes), lo);
  }

  lemma {:induction false} ShapeSeq(g: Gen, ss: seq<Stmt>, lo: nat)
    requires Ready(g, lo)
    ensures StmtShape(g, LowerSeq(g, ss), lo)
    decreases ss
  {
    if ss == [] {
      UnderwayStart(g, {}, lo);
    } else {
      ShapeStmt(g, ss[0], lo);
      var g1 := LowerStmt(g, ss[0]);
      if g1.ok && !Terminated(InsertBlock(g1)) {
        ShapeSeq(g1, ss[1..], lo);
        StmtThen(g, g1, LowerSeq(g1, ss[1..]), lo);
      }
    }
  }

  lemma IfEquation(g: Gen, s: Stmt)
    requires s.If?
    ensures var g1 := LowerExpr(g, s.cond);
      LowerStmt(g, s) ==
        if !g1.g.ok || g1.operand.None? then g1.g
        else
          var l, g3 := NextLabel(g1.g), LowerStmt(StartIf(g1.g, g1.operand.value), s.thn);
          if !g3.ok then g3
          else
            var g4 := SetInsert(Attach(BranchIfOpen(g3, l + 2), l + 1), l + 1);
            var g5 := if s.els.Some? then LowerStmt(g4, s.els.value) else g4;
            if g5.ok then SetInsert(Attach(BranchIfOpen(g5, l + 2), l + 2), l + 2) else g5
  {
    hide StartIf, BranchIfOpen, LowerExpr, Attach, SetInsert, LowerSeq, LowerAssign;
  }

  lemma WhileEquation(g: Gen, s: Stmt)
    requires s.While?
    ensures var l, g1 := NextLabel(g), LowerExpr(StartWhile(g), s.cond);
      LowerStmt(g, s) ==
        if !g1.g.ok || g1.operand.None? then g1.g
        else
          var g3 := LowerStmt(SetInsert(Emit(g1.g, CondBr(g1.operand.value, l + 1, l + 2)), l + 1), s.body);
          if !g3.ok then g3 else SetInsert(Attach(BranchIfOpen(g3, l), l + 2), l + 2)
  {
    hide StartWhile, BranchIfOpen, LowerExpr, Attach, SetInsert, LowerSeq, LowerAssign, Emit;
  }

  lemma DoEquation(g: Gen, s: Stmt)
    requires s.DoWhile?
    ensures var l, g1 := NextLabel(g), LowerStmt(StartDoWhile(g), s.body);
      LowerStmt(g, s) ==
        if !g1.ok then g1
        else if Terminated(InsertBlock(g1)) then SetInsert(Attach(g1, l + 1), l + 1)
        else
          var r := LowerExpr(g1, s.cond);
          if !r.g.ok || r.operand.None? then r.g
          else SetInsert(Attach(Emit(r.g, CondBr(r.operand.value, l, l + 1)), l + 1), l + 1)
  {
    hide StartDoWhile, LowerExpr;
  }

  lemma {:induction false} ShapeIf(g: Gen, s: Stmt, lo: nat)
    requires Ready(g, lo) && s.If?
    ensures StmtShape(g, LowerStmt(g, s), lo)
    decreases s, 0
  {
    hide Grows, Settled, Tidy, Ready, LowerStmt, LowerExpr, StartIf, BranchIfOpen, Attach;
    IfEquation(g, s);
    ShapeExpr(g, s.cond, lo);
    var g1 := LowerExpr(g, s.cond);
    ExprIsStmt(g, g1, lo);
    if g1.g.ok {
      var l := NextLabel(g1.g);
      var g2 := StartIf(g1.g, g1.operand.value);
      ShapeStartIf(g1.g, g1.operand.value, lo);
      ShapeStmt(g2, s.thn, lo);
      var g3 := LowerStmt(g2, s.thn);
      ShapeNested(g1.g, g2, g3, {l + 1, l + 2}, lo);
      if g3.ok {
        ShapeJoin(g1.g, g3, l + 2, l + 1, {l + 1, l + 2}, {l + 2}, lo);
        var g4 := SetInsert(Attach(BranchIfOpen(g3, l + 2), l + 1), l + 1);
        ShapeElse(g1.g, g4, s.els, l + 2, lo);
      }
      StmtThen(g, g1.g, LowerStmt(g, s), lo);
    }
  }

  lemma {:induction false} ShapeElse(b: Gen, g: Gen, els: Option<Stmt>, merge: nat, lo: nat)
    requires Underway(b, g, {merge}, lo) && Ready(g, lo) && Waiting(b, g, merge) && lo <= merge
    ensures var h := if els.Some? then LowerStmt(g, els.value) else g;
      StmtShape(b, if h.ok then SetInsert(Attach(BranchIfOpen(h, merge), merge), merge) else h, lo)
    decreases els
  {
    var h := g;
    UnderwayStart(g, {}, lo);
    if els.Some? {
      ShapeStmt(g, els.value, lo);
      h := LowerStmt(g, els.value);
    }
    ShapeNested(b, g, h, {merge}, lo);
    if h.ok {
      ShapeJoin(b, h, merge, merge, {merge}, {}, lo);
    }
  }

  lemma {:induction false} ShapeWhile(g: Gen, s: Stmt, lo: nat)
    requires Ready(g, lo) && s.While?
    ensures StmtShape(g, LowerStmt(g, s), lo)
    decreases s, 0
  {
    hide Settled, Tidy, LowerExpr, Terminated, StartWhile;
    var l := NextLabel(g);
    var g0 := StartWhile(g);
    ShapeStartWhile(g, lo);
    ShapeExpr(g0, s.cond, lo);
    var g1 := LowerExpr(g0, s.cond);
    ExprNested(g, g0, g1, {l + 1, l + 2}, lo);
    if g1.g.ok {
      var i := CondBr(g1.operand.value, l + 1, l + 2);
      UnderwayEmit(g, g1.g, i, {l + 1, l + 2}, lo);
      ShapeEnter(g, Emit(g1.g, i), l + 1, {l + 1, l + 2}, {l + 2}, lo);
      var g2 := SetInsert(Emit(g1.g, i), l + 1);
      ShapeStmt(g2, s.body, lo);
      var g3 := LowerStmt(g2, s.body);
      ShapeNested(g, g2, g3, {l + 2}, lo);
      if g3.ok {
        ShapeJoin(g, g3, l, l + 2, {l + 2}, {}, lo);
      }
    }
  }

  lemma {:induction false} ShapeDoWhile(g: Gen, s: Stmt, lo: nat)
    requires Ready(g, lo) && s.DoWhile?
    ensures StmtShape(g, LowerStmt(g, s), lo)
    decreases s, 0
  {
    hide Settled, Tidy, LowerExpr, StartDoWhile, Terminated, Attach;
    var l := NextLabel(g);
    var g0 := StartDoWhile(g);
    ShapeStartDoWhile(g, lo);
    ShapeStmt(g0, s.body, lo);
    var g1 := LowerStmt(g0, s.body);
    ShapeNested(g, g0, g1, {l + 1}, lo);
    if g1.ok {
      if Terminated(InsertBlock(g1)) {
        ShapeSwitch(g, g1, l + 1, {l + 1}, {}, lo);
      } else {
        ShapeExpr(g1, s.cond, lo);
        var g2 := LowerExpr(g1, s.cond);
        ExprNested(g, g1, g2, {l + 1}, lo);
        if g2.g.ok {
          var i := CondBr(g2.operand.value, l, l + 1);
          UnderwayEmit(g, g2.g, i, {l + 1}, lo);
          ShapeSwitch(g, Emit(g2.g, i), l + 1, {l + 1}, {}, lo);
        }
      }
    }
  }
}
