/** The states a compound statement's visit passes through, named, with the shape of each. */
module Stages {
  import opened Wrappers
  import opened Ast
  import opened Ir
  import opened Lowering
  import opened Shape
  import opened Visits

  // ----- statements, stage by stage -----

  /** `l` is the first of the three new labels. */
  datatype IfStages = IfStages(
    test: Lowered, l: nat, thenStart: Gen, thenEnd: Gen, elseStart: Gen, elseEnd: Gen, end: Gen)

  function StagesOfIf(g: Gen, s: Stmt): (r: Option<IfStages>)
    requires s.If?
    ensures r.Some? ==> r.value.test.operand.Some? && r.value.end == LowerStmt(g, s)
    ensures LowerStmt(g, s).ok && LowerExpr(g, s.cond).operand.Some? ==> r.Some?
  {
    var test := LowerExpr(g, s.cond);
    if !test.g.ok || test.operand.None? then None
    else
      var l := NextLabel(test.g);
      var thenStart := StartIf(test.g, test.operand.value);
      var thenEnd := LowerStmt(thenStart, s.thn);
      if !thenEnd.ok then None
      else
        var elseStart := SetInsert(Attach(BranchIfOpen(thenEnd, l + 2), l + 1), l + 1);
        var elseEnd := if s.els.Some? then LowerStmt(elseStart, s.els.value) else elseStart;
        if !elseEnd.ok then None
        else
          Some(IfStages(test, l, thenStart, thenEnd, elseStart, elseEnd,
                        SetInsert(Attach(BranchIfOpen(elseEnd, l + 2), l + 2), l + 2)))
  }

  ghost predicate ThenShape(g: Gen, st: IfStages, lo: nat) {
    var g1 := st.test.g;
    && ExprShape(g, st.test, lo)
    && Ready(st.thenStart, lo) && Underway(g1, st.thenStart, {st.l + 1, st.l + 2}, lo)
    && st.thenStart.insert == st.l && InsertBlock(st.thenStart) == [] && st.thenStart.scopes == g.scopes
    && StmtShape(st.thenStart, st.thenEnd, lo) && Underway(g1, st.thenEnd, {st.l + 1, st.l + 2}, lo)
    && Waiting(g1, st.thenEnd, st.l + 1) && Waiting(g1, st.thenEnd, st.l + 2)
  }

  ghost predicate ElseShape(st: IfStages, lo: nat) {
    var g1 := st.test.g;
    && Ready(st.elseStart, lo) && Underway(g1, st.elseStart, {st.l + 2}, lo)
    && st.elseStart.insert == st.l + 1 && InsertBlock(st.elseStart) == []
    && st.elseStart.scopes == st.thenEnd.scopes
    && StmtShape(st.elseStart, st.elseEnd, lo)
    && Ready(st.end, lo) && Underway(g1, st.end, {}, lo)
    && st.end.insert == st.l + 2 && InsertBlock(st.end) == [] && st.end.scopes == st.elseEnd.scopes
  }

  lemma ShapeOfThen(g: Gen, s: Stmt, lo: nat)
    requires s.If? && Ready(g, lo) && StagesOfIf(g, s).Some?
    ensures ThenShape(g, StagesOfIf(g, s).value, lo)
  {
    hide Settled, Tidy, Grows, LowerStmt;
    var st := StagesOfIf(g, s).value;
    var l := st.l;
    var g1 := st.test.g;
    ShapeExpr(g, s.cond, lo);
    ShapeStartIf(g1, st.test.operand.value, lo);
    ShapeStmt(st.thenStart, s.thn, lo);
    ShapeNested(g1, st.thenStart, st.thenEnd, {l + 1, l + 2}, lo);
  }

  lemma ShapeOfElse(g: Gen, s: Stmt, lo: nat)
    requires s.If? && Ready(g, lo) && StagesOfIf(g, s).Some?
    ensures ElseShape(StagesOfIf(g, s).value, lo)
  {
    hide Settled, Tidy, Grows, LowerStmt, LowerExpr, ThenShape;
    ShapeOfThen(g, s, lo);
    var st := StagesOfIf(g, s).value;
    var l := st.l;
    var g1 := st.test.g;
    ThenOpens(g, st, lo);
    ShapeJoin(g1, st.thenEnd, l + 2, l + 1, {l + 1, l + 2}, {l + 2}, lo);
    if s.els.Some? {
      ShapeStmt(st.elseStart, s.els.value, lo);
    } else {
      UnderwayStart(st.elseStart, {}, lo);
    }
    ShapeNested(g1, st.elseStart, st.elseEnd, {l + 2}, lo);
    ShapeJoin(g1, st.elseEnd, l + 2, l + 2, {l + 2}, {}, lo);
  }

  lemma ThenOpens(g: Gen, st: IfStages, lo: nat)
    requires ThenShape(g, st, lo)
    ensures Underway(st.test.g, st.thenEnd, {st.l + 1, st.l + 2}, lo) && Placed(st.thenEnd)
    ensures Waiting(st.test.g, st.thenEnd, st.l + 1) && Waiting(st.test.g, st.thenEnd, st.l + 2)
  {
  }

  /** `l` is the loop's label, followed by the body's and the one after the loop. */
  datatype WhileStages = WhileStages(l: nat, loopStart: Gen, test: Lowered, bodyStart: Gen, bodyEnd: Gen, end: Gen)

  function StagesOfWhile(g: Gen, s: Stmt): (r: Option<WhileStages>)
    requires s.While?
    ensures r.Some? ==> r.value.test.operand.Some? && r.value.end == LowerStmt(g, s)
    ensures LowerStmt(g, s).ok && LowerExpr(StartWhile(g), s.cond).operand.Some? ==> r.Some?
  {
    WhileEquation(g, s);
    hide LowerStmt, LowerExpr, StartWhile, BranchIfOpen;
    var l := NextLabel(g);
    var loopStart := StartWhile(g);
    var test := LowerExpr(loopStart, s.cond);
    if !test.g.ok || test.operand.None? then None
    else
      var bodyStart := SetInsert(Emit(test.g, CondBr(test.operand.value, l + 1, l + 2)), l + 1);
      var bodyEnd := LowerStmt(bodyStart, s.body);
      if !bodyEnd.ok then None
      else
        Some(WhileStages(l, loopStart, test, bodyStart, bodyEnd,
                         SetInsert(Attach(BranchIfOpen(bodyEnd, l), l + 2), l + 2)))
  }

  ghost predicate LoopShape(g: Gen, st: WhileStages, lo: nat) {
    && Ready(st.loopStart, lo) && Underway(g, st.loopStart, {st.l + 1, st.l + 2}, lo)
    && st.loopStart.insert == st.l && InsertBlock(st.loopStart) == [] && st.loopStart.scopes == g.scopes
    && ExprShape(st.loopStart, st.test, lo)
    && Ready(st.bodyStart, lo) && Underway(g, st.bodyStart, {st.l + 2}, lo)
    && st.bodyStart.insert == st.l + 1 && InsertBlock(st.bodyStart) == [] && st.bodyStart.scopes == g.scopes
    && Waiting(g, st.bodyStart, st.l + 2)
  }

  ghost predicate LoopEndShape(g: Gen, st: WhileStages, lo: nat) {
    && StmtShape(st.bodyStart, st.bodyEnd, lo) && Underway(g, st.bodyEnd, {st.l + 2}, lo)
    && Ready(st.end, lo) && Underway(g, st.end, {}, lo)
    && st.end.insert == st.l + 2 && InsertBlock(st.end) == [] && st.end.scopes == st.bodyEnd.scopes
  }

  lemma ShapeOfLoop(g: Gen, s: Stmt, lo: nat)
    requires s.While? && Ready(g, lo) && StagesOfWhile(g, s).Some?
    ensures LoopShape(g, StagesOfWhile(g, s).value, lo)
  {
    hide Settled, Tidy, LowerStmt, LowerExpr;
    var st := StagesOfWhile(g, s).value;
    var l := st.l;
    ShapeStartWhile(g, lo);
    ShapeExpr(st.loopStart, s.cond, lo);
    ExprNested(g, st.loopStart, st.test, {l + 1, l + 2}, lo);
    var i := CondBr(st.test.operand.value, l + 1, l + 2);
    UnderwayEmit(g, st.test.g, i, {l + 1, l + 2}, lo);
    ShapeEnter(g, Emit(st.test.g, i), l + 1, {l + 1, l + 2}, {l + 2}, lo);
  }

  lemma ShapeOfLoopEnd(g: Gen, s: Stmt, lo: nat)
    requires s.While? && Ready(g, lo) && StagesOfWhile(g, s).Some?
    ensures LoopEndShape(g, StagesOfWhile(g, s).value, lo)
  {
    hide Settled, Tidy, Grows, LowerStmt, LowerExpr;
    ShapeOfLoop(g, s, lo);
    var st := StagesOfWhile(g, s).value;
    ShapeStmt(st.bodyStart, s.body, lo);
    ShapeNested(g, st.bodyStart, st.bodyEnd, {st.l + 2}, lo);
    ShapeJoin(g, st.bodyEnd, st.l, st.l + 2, {st.l + 2}, {}, lo);
  }

  /** `test` is the condition's visit, which happens only if the body can fall through. */
  datatype DoWhileStages = DoWhileStages(l: nat, loopStart: Gen, bodyEnd: Gen, test: Lowered, end: Gen)

  function StagesOfDoWhile(g: Gen, s: Stmt): (r: Option<DoWhileStages>)
    requires s.DoWhile?
    ensures r.Some? ==> r.value.test.operand.Some? && r.value.end == LowerStmt(g, s)
    ensures var h := LowerStmt(StartDoWhile(g), s.body);
      LowerStmt(g, s).ok && !Terminated(InsertBlock(h)) && LowerExpr(h, s.cond).operand.Some? ==> r.Some?
  {
    var l := NextLabel(g);
    var loopStart := StartDoWhile(g);
    var bodyEnd := LowerStmt(loopStart, s.body);
    if !bodyEnd.ok || Terminated(InsertBlock(bodyEnd)) then None
    else
      var test := LowerExpr(bodyEnd, s.cond);
      if !test.g.ok || test.operand.None? then None
      else
        Some(DoWhileStages(l, loopStart, bodyEnd, test,
                           SetInsert(Attach(Emit(test.g, CondBr(test.operand.value, l, l + 1)), l + 1), l + 1)))
  }

  ghost predicate DoShape(g: Gen, st: DoWhileStages, lo: nat) {
    && Ready(st.loopStart, lo) && Underway(g, st.loopStart, {st.l + 1}, lo)
    && st.loopStart.insert == st.l && InsertBlock(st.loopStart) == [] && st.loopStart.scopes == g.scopes
    && StmtShape(st.loopStart, st.bodyEnd, lo) && Ready(st.bodyEnd, lo)
    && ExprShape(st.bodyEnd, st.test, lo)
    && Ready(st.end, lo) && Underway(g, st.end, {}, lo)
    && st.end.insert == st.l + 1 && InsertBlock(st.end) == [] && st.end.scopes == st.bodyEnd.scopes
  }

  lemma ShapeOfDo(g: Gen, s: Stmt, lo: nat)
    requires s.DoWhile? && Ready(g, lo) && StagesOfDoWhile(g, s).Some?
    ensures DoShape(g, StagesOfDoWhile(g, s).value, lo)
  {
    hide Settled, Tidy, LowerStmt, LowerExpr;
    var st := StagesOfDoWhile(g, s).value;
    var l := st.l;
    ShapeStartDoWhile(g, lo);
    ShapeStmt(st.loopStart, s.body, lo);
    ShapeNested(g, st.loopStart, st.bodyEnd, {l + 1}, lo);
    ShapeExpr(st.bodyEnd, s.cond, lo);
    ExprNested(g, st.bodyEnd, st.test, {l + 1}, lo);
    var i := CondBr(st.test.operand.value, l, l + 1);
    UnderwayEmit(g, st.test.g, i, {l + 1}, lo);
    ShapeSwitch(g, Emit(st.test.g, i), l + 1, {l + 1}, {}, lo);
  }

  lemma IfSucceeds(g: Gen, s: Stmt, lo: nat)
    requires s.If? && Ready(g, lo) && LowerStmt(g, s).ok
    ensures StagesOfIf(g, s).Some?
  {
    ShapeExpr(g, s.cond, lo);
  }

  lemma WhileSucceeds(g: Gen, s: Stmt, lo: nat)
    requires s.While? && Ready(g, lo) && LowerStmt(g, s).ok
    ensures StagesOfWhile(g, s).Some?
  {
    ShapeStartWhile(g, lo);
    ShapeExpr(StartWhile(g), s.cond, lo);
  }

  lemma DoSucceeds(g: Gen, s: Stmt, lo: nat)
    requires s.DoWhile? && Ready(g, lo) && LowerStmt(g, s).ok
    requires !Terminated(InsertBlock(LowerStmt(StartDoWhile(g), s.body)))
    ensures StagesOfDoWhile(g, s).Some?
  {
    ShapeStartDoWhile(g, lo);
    ShapeStmt(StartDoWhile(g), s.body, lo);
    ShapeExpr(LowerStmt(StartDoWhile(g), s.body), s.cond, lo);
  }

  // ----- expressions -----

  lemma UnaryGrows(g: Gen, e: Expr, lo: nat)
    requires Ready(g, lo) && e.Unary? && LowerExpr(g, e).g.ok
    ensures var r1 := LowerExpr(g, e.sub);
      && r1.g.ok && r1.operand.Some? && Ready(r1.g, lo) && r1.g.scopes == g.scopes
      && NextReg(g) <= NextReg(r1.g) <= NextReg(LowerExpr(g, e).g)
      && Extends(r1.g.code, LowerExpr(g, e).g.code) && Tidy(LowerExpr(g, e).g, lo)
  {
    hide Settled;
    ShapeExpr(g, e.sub, lo);
    ShapeExpr(g, e, lo);
    var r1 := LowerExpr(g, e.sub);
    if !e.uop.Pos? && r1.g.ok {
      ShapeMonadic(r1.g, e.uop, e.sub.Type(), r1.operand.value, lo);
    }
  }

  /** The stages of an operator, each an extension of the one before. */
  lemma StrictGrows(g: Gen, e: Expr, lo: nat)
    requires Ready(g, lo) && e.Binary? && !e.op.And? && !e.op.Or? && LowerExpr(g, e).g.ok
    ensures var r1 := LowerExpr(g, e.lhs);
      var r2 := LowerExpr(r1.g, e.rhs);
      var h := LowerExpr(g, e).g;
      && r1.g.ok && Ready(r1.g, lo) && r1.g.scopes == g.scopes && r1.operand.Some?
      && r2.g.ok && Ready(r2.g, lo) && r2.operand.Some?
      && h == LowerStrict(r2.g, IsFloatOp(e.lhs, e.rhs), e.op, r1.operand.value, r2.operand.value).g
      && NextReg(g) <= NextReg(r1.g) <= NextReg(r2.g) <= NextReg(h) && Tidy(h, lo)
      && Extends(r1.g.code, h.code) && Extends(r2.g.code, h.code)
  {
    hide Settled, LowerStrict, Tidy;
    ShapeExpr(g, e.lhs, lo);
    var r1 := LowerExpr(g, e.lhs);
    if r1.g.ok {
      ShapeExpr(r1.g, e.rhs, lo);
      var r2 := LowerExpr(r1.g, e.rhs);
      if r2.g.ok {
        ShapeStrict(r2.g, IsFloatOp(e.lhs, e.rhs), e.op, r1.operand.value, r2.operand.value, lo);
        ExtendsTransitive(r1.g.code, r2.g.code, LowerExpr(g, e).g.code);
      }
    }
    ShapeExpr(g, e, lo);
  }

  lemma LogicalEquation(g: Gen, e: Expr)
    requires e.Binary? && (e.op.And? || e.op.Or?) && LowerExpr(g, e).g.ok && LowerExpr(g, e).operand.Some?
    ensures var r1 := LowerExpr(g, e.lhs);
      && r1.g.ok && r1.operand.Some?
      && var r3 := LowerExpr(StartShortCircuit(r1.g, e.op, r1.operand.value), e.rhs);
      && r3.g.ok && r3.operand.Some?
      && LowerExpr(g, e) == EndShortCircuit(r3.g, NextReg(r1.g), NextLabel(r1.g) + 1, r3.operand.value)
  {
    hide StartShortCircuit, EndShortCircuit;
  }

  /** The stages of `&&` and `||`. */
  lemma LogicalGrows(g: Gen, e: Expr, lo: nat)
    requires Ready(g, lo) && e.Binary? && (e.op.And? || e.op.Or?) && LowerExpr(g, e).g.ok
    ensures LowerExpr(g, e.lhs).operand.Some?
    ensures var r1 := LowerExpr(g, e.lhs);
      var g2 := StartShortCircuit(r1.g, e.op, r1.operand.value);
      var r3 := LowerExpr(g2, e.rhs);
      var merge, h := NextLabel(r1.g) + 1, LowerExpr(g, e).g;
      && r1.g.ok && Ready(r1.g, lo) && r1.g.scopes == g.scopes
      && Ready(g2, lo) && g2.scopes == g.scopes
      && r3.g.ok && Ready(r3.g, lo) && r3.operand.Some? && Extends(g2.code, r3.g.code)
      && merge < |r3.g.code.blocks| && merge != r3.g.insert && r3.g.code.blocks[merge].code == []
      && LowerExpr(g, e) == EndShortCircuit(r3.g, NextReg(r1.g), merge, r3.operand.value) && lo <= merge
      && NextReg(g) <= NextReg(r1.g) <= NextReg(g2) <= NextReg(r3.g) <= NextReg(h)
      && Tidy(h, lo) && Extends(r1.g.code, h.code) && Extends(r3.g.code, h.code)
  {
    hide Settled, Tidy, StartShortCircuit, EndShortCircuit, LowerExpr, Terminated, Underway;
    ShapeExpr(g, e, lo);
    LogicalEquation(g, e);
    ShapeExpr(g, e.lhs, lo);
    var r1 := LowerExpr(g, e.lhs);
    var g2 := StartShortCircuit(r1.g, e.op, r1.operand.value);
    ShapeStartShortCircuit(r1.g, e.op, r1.operand.value, lo);
    ShapeExpr(g2, e.rhs, lo);
    var r3 := LowerExpr(g2, e.rhs);
    RightWaits(r1.g, g2, r3, lo);
    EndGrows(r3.g, NextReg(r1.g), NextLabel(r1.g) + 1, r3.operand.value);
    ExtendsTransitive(r1.g.code, g2.code, r3.g.code);
    ExtendsTransitive(r1.g.code, r3.g.code, LowerExpr(g, e).g.code);
  }

  /** While the right side is visited the merge block waits. */
  lemma RightWaits(b: Gen, g: Gen, r: Lowered, lo: nat)
    requires Underway(b, g, {NextLabel(b) + 1}, lo) && Ready(g, lo) && ExprShape(g, r, lo)
    requires NextLabel(b) + 1 < |g.code.blocks| && g.code.blocks[NextLabel(b) + 1] == BasicBlock([], None)
    ensures var l, h := NextLabel(b) + 1, r.g;
      l < |h.code.blocks| && l != h.insert && h.code.blocks[l].code == [] && Extends(b.code, g.code) && Extends(g.code, h.code)
    ensures NextReg(b) <= NextReg(g) <= NextReg(r.g)
  {
    hide Settled, Tidy;
    assert Waiting(b, g, NextLabel(b) + 1);
    ExprNested(b, g, r, {NextLabel(b) + 1}, lo);
  }

  lemma EndGrows(g: Gen, slot: nat, merge: nat, v: Operand)
    requires g.insert < |g.code.blocks| && merge < |g.code.blocks|
    ensures var h := EndShortCircuit(g, slot, merge, v).g;
      Extends(g.code, h.code) && NextReg(g) <= NextReg(h)
  {
  }

  lemma CallGrows(g: Gen, e: Expr, lo: nat)
    requires Ready(g, lo) && e.Call? && LowerExpr(g, e).g.ok
    ensures e.callee in g.funcs && g.funcs[e.callee] < |g.code.fns|
    ensures var f := g.funcs[e.callee];
      var fn := g.code.fns[f];
      && |e.args| == |fn.params|
      && var r := LowerArgs(g, e.args, fn.params);
      var h := LowerExpr(g, e).g;
      && r.g.ok && Ready(r.g, lo) && h == EmitDef(r.g, fn.ret, CallFn(NextReg(r.g), f, r.operands))
      && NextReg(g) <= NextReg(r.g) <= NextReg(h) && Extends(r.g.code, h.code) && Tidy(h, lo)
  {
    hide Settled;
    ShapeExpr(g, e, lo);
    var fn := g.code.fns[g.funcs[e.callee]];
    ShapeArgs(g, e.args, fn.params, lo);
    var r := LowerArgs(g, e.args, fn.params);
    ShapeDef(r.g, fn.ret, CallFn(NextReg(r.g), g.funcs[e.callee], r.operands), lo);
  }

  /** The first argument and the rest. */
  lemma ArgsGrow(g: Gen, args: seq<Expr>, params: seq<LType>, lo: nat)
    requires Ready(g, lo) && |args| == |params| && args != [] && LowerArgs(g, args, params).g.ok
    ensures var r1 := LowerExpr(g, args[0]);
      && r1.g.ok && Ready(r1.g, lo) && r1.operand.Some? && r1.g.scopes == g.scopes
      && var r2 := LowerCast(r1.g, r1.operand.value, params[0]);
      var h := LowerArgs(g, args, params).g;
      && Ready(r2.g, lo) && r2.g.scopes == g.scopes && h == LowerArgs(r2.g, args[1..], params[1..]).g
      && NextReg(g) <= NextReg(r1.g) <= NextReg(r2.g) <= NextReg(h)
      && Extends(r1.g.code, h.code) && Tidy(h, lo)
  {
    hide Settled, LowerCast;
    ShapeArgs(g, args, params, lo);
    ShapeExpr(g, args[0], lo);
    var r1 := LowerExpr(g, args[0]);
    if r1.g.ok {
      var r2 := LowerCast(r1.g, r1.operand.value, params[0]);
      ShapeCast(r1.g, r1.operand.value, params[0], lo);
      ShapeArgs(r2.g, args[1..], params[1..], lo);
      ExtendsTransitive(r1.g.code, r2.g.code, LowerArgs(g, args, params).g.code);
    }
  }

  lemma StrictScopes(g: Gen, e: Expr, lo: nat)
    requires Ready(g, lo)
    ensures LowerExpr(g, e).g.scopes == g.scopes
  {
    ShapeExpr(g, e, lo);
  }
}
