/** The branch and the saved cell behind `&&` and `||`. */
module ShortCircuit {
  import opened Wrappers
  import opened Values
  import opened Ast
  import opened Ir
  import opened Lowering
  import opened Shape
  import opened Visits
  import opened Matching

  /** Register `slot` points to cell `cell`, which holds `v`. */
  ghost predicate Saved(fr: Frame, slot: nat, cell: nat, v: Val) {
    slot in fr.regs && fr.regs[slot] == Pointer(cell) && cell < |fr.cells| && fr.cells[cell] == Some(v)
  }

  ghost predicate AtStart(t: State, l: nat) {
    t.status.Running? && t.cur.lbl == l && t.cur.pc == 0
  }

  function SaveLeft(g: Gen, v: Operand): Gen {
    Emit(EmitDef(g, PtrTo(I1), Alloca(NextReg(g), I1)), Store(v, NextReg(g)))
  }

  lemma StepAlloca(c: Code, ops: FloatOps, g: Gen, t: LType, s: State)
    requires At(g, s) && g.insert < |g.code.blocks| && Extends(EmitDef(g, PtrTo(t), Alloca(NextReg(g), t)).code, c)
    ensures var h, u := EmitDef(g, PtrTo(t), Alloca(NextReg(g), t)), Run(c, ops, s, 1);
      && At(h, u) && Keeps(g, s, u) && u.out == s.out && u.cur.trail == s.cur.trail
      && u.cur.cells == s.cur.cells + [None]
      && NextReg(g) in u.cur.regs && u.cur.regs[NextReg(g)] == Pointer(|s.cur.cells|)
  {
    FetchInstr(c, ops, g.(code := g.code.(regs := g.code.regs + [PtrTo(t)])), Alloca(NextReg(g), t), s);
  }

  lemma StepStore(c: Code, ops: FloatOps, g: Gen, op: Operand, slot: nat, v: Val, s: State)
    requires At(g, s) && g.insert < |g.code.blocks| && Extends(Emit(g, Store(op, slot)).code, c)
    requires Fetch(s.cur, op) == Got(v) && PointsToCell(s.cur, slot)
    ensures var u := Run(c, ops, s, 1);
      && At(Emit(g, Store(op, slot)), u) && Keeps(g, s, u) && u.out == s.out && u.cur.regs == s.cur.regs
      && u.cur.trail == s.cur.trail
      && u.cur.cells == s.cur.cells[s.cur.regs[slot].cell := Some(v)]
  {
    FetchInstr(c, ops, g, Store(op, slot), s);
  }

  lemma SimSaveLeft(c: Code, ops: FloatOps, g: Gen, op: Operand, v: Val, s: State)
    requires At(g, s) && Open(g) && HasValue(g, s.cur, op, v)
    requires Extends(SaveLeft(g, op).code, c)
    ensures var h, u := SaveLeft(g, op), Run(c, ops, s, 2);
      && At(h, u) && Keeps(g, s, u) && KeepsCells(s, u) && u.out == s.out && u.cur.trail == s.cur.trail
      && HasValue(h, u.cur, op, v) && Saved(u.cur, NextReg(g), |s.cur.cells|, v)
  {
    var g1 := EmitDef(g, PtrTo(I1), Alloca(NextReg(g), I1));
    ExtendsEmit(c, g1, Store(op, NextReg(g)));
    StepAlloca(c, ops, g, I1, s);
    var s1 := Run(c, ops, s, 1);
    ValueKept(g, g1, op, v, s, s1);
    StepStore(c, ops, g1, op, NextReg(g), v, s1);
    RunTwice(c, ops, s, 1, 1);
  }

  /** The branch: into the right side exactly if the left side does not decide. */
  lemma SimStartShortCircuit(c: Code, ops: FloatOps, g: Gen, op: BinaryOp, v: Operand, a: Val, s: State, lo: nat)
    requires op.And? || op.Or?
    requires At(g, s) && Ready(g, lo) && HasValue(g, s.cur, v, a)
    requires Extends(StartShortCircuit(g, op, v).code, c)
    ensures var t := Run(c, ops, s, 3);
      && t.out == s.out
      && (a.BoolV? ==>
            && AtStart(t, if a.b == op.Or? then NextLabel(g) + 1 else NextLabel(g))
            && t.cur.trail == s.cur.trail + [if a.b == op.Or? then NextLabel(g) + 1 else NextLabel(g)]
            && Keeps(g, s, t) && KeepsCells(s, t) && Saved(t.cur, NextReg(g), |s.cur.cells|, a))
      && (!a.BoolV? ==> t.status == Faulted(TypeMismatch) && t.callers == s.callers && t.cur.trail == s.cur.trail)
  {
    hide Extends, Ready, Terminated, Emit, EmitDef, SaveLeft, Perform;
    StartStages(c, g, op, v, lo);
    var g1 := SaveLeft(g, v);
    var g2 := CreateBlock(CreateBlock(g1, Some(g.cur)), None);
    SimSaveLeft(c, ops, g, v, a, s);
    var s2 := Run(c, ops, s, 2);
    StepBranch(c, ops, g2, op, NextLabel(g), v, a, s2);
    RunTwice(c, ops, s, 2, 1);
  }

  function BranchOn(op: BinaryOp, v: Operand, rhs: nat): Instr {
    if op.And? then CondBr(v, rhs, rhs + 1) else CondBr(v, rhs + 1, rhs)
  }

  lemma StartStages(c: Code, g: Gen, op: BinaryOp, v: Operand, lo: nat)
    requires Ready(g, lo) && Extends(StartShortCircuit(g, op, v).code, c)
    ensures var g1 := SaveLeft(g, v);
      var g2 := CreateBlock(CreateBlock(g1, Some(g.cur)), None);
      && Open(g) && Extends(g1.code, c) && Extends(Emit(g2, BranchOn(op, v, NextLabel(g))).code, c)
      && g2.insert < |g2.code.blocks| && g1.insert == g2.insert && InsertBlock(g2) == InsertBlock(g1)
  {
    var g1 := SaveLeft(g, v);
    var g2 := CreateBlock(CreateBlock(g1, Some(g.cur)), None);
    ShapeSaveLeft(g, v, lo);
    ExtendsEmit(c, g2, BranchOn(op, v, NextLabel(g)));
    assert Extends(g1.code, g2.code);
    ExtendsTransitive(g1.code, g2.code, c);
  }

  lemma StepBranch(c: Code, ops: FloatOps, g: Gen, op: BinaryOp, rhs: nat, v: Operand, a: Val, s: State)
    requires op.And? || op.Or?
    requires At(g, s) && g.insert < |g.code.blocks| && Extends(Emit(g, BranchOn(op, v, rhs)).code, c)
    requires Fetch(s.cur, v) == Got(a)
    ensures var t := Run(c, ops, s, 1);
      if a.BoolV? then t == Jump(s, if a.b == op.Or? then rhs + 1 else rhs) else t == Fail(s, TypeMismatch)
  {
    FetchInstr(c, ops, g, BranchOn(op, v, rhs), s);
  }

  /** The state at the merge block, before the saved value is read back. */
  function MergePoint(g: Gen, slot: nat, merge: nat, v: Operand): Gen {
    SetInsert(Attach(Emit(Emit(g, Store(v, slot)), Br(merge)), merge), merge)
  }

  lemma EndStages(c: Code, b: Gen, g: Gen, slot: nat, merge: nat, v: Operand, lo: nat)
    requires Underway(b, g, {merge}, lo) && Open(g) && Waiting(b, g, merge)
    requires Extends(EndShortCircuit(g, slot, merge, v).g.code, c)
    ensures var g1, g2 := Emit(g, Store(v, slot)), MergePoint(g, slot, merge, v);
      && Extends(Emit(g1, Br(merge)).code, c) && Extends(g1.code, c) && Open(g1)
      && g2.insert == merge && Open(g2) && InsertBlock(g2) == [] && Grows(b, g2)
      && g2.code.regs == g.code.regs
      && Extends(EmitDef(g2, I1, Load(NextReg(g2), I1, slot)).code, c)
  {
    UnderwayEmit(b, g, Store(v, slot), {merge}, lo);
    var g1 := Emit(g, Store(v, slot));
    UnderwayEmit(b, g1, Br(merge), {merge}, lo);
    var g2 := Emit(g1, Br(merge));
    UnderwaySwitch(b, g2, merge, {merge}, {}, lo);
    var g3 := MergePoint(g, slot, merge, v);
    var i := Load(NextReg(g3), I1, slot);
    UnderwayDef(b, g3, I1, i, {}, lo);
    GrowsRefl(g3);
    GrowsEmitDef(g3, g3, I1, i);
    ExtendsTransitive(g3.code, EmitDef(g3, I1, i).code, c);
    ExtendsTransitive(g2.code, g3.code, c);
    ExtendsEmit(c, g1, Br(merge));
  }

  /** The operand `&&` or `||` leaves: the saved value, loaded in the merge block. */
  function ReadBack(g: Gen, slot: nat): Lowered {
    Lowered(EmitDef(g, I1, Load(NextReg(g), I1, slot)), Some(Reg(NextReg(g))))
  }

  /** Reading the saved value back, in the merge block. */
  lemma StepReadBack(c: Code, ops: FloatOps, g: Gen, slot: nat, cell: nat, v: Val, s: State)
    requires At(g, s) && g.insert < |g.code.blocks| && Saved(s.cur, slot, cell, v)
    requires Extends(ReadBack(g, slot).g.code, c)
    ensures var r, t := ReadBack(g, slot), Run(c, ops, s, 1);
      && t.out == s.out && t.callers == s.callers && t.cur.trail == s.cur.trail
      && if v.BoolV? then ExprDone(g, r, s, t, v) else t.status == Faulted(TypeMismatch)
  {
    var i := Load(NextReg(g), I1, slot);
    if v.BoolV? {
      StepDef(c, ops, g, I1, i, v, s);
    } else {
      FetchInstr(c, ops, g.(code := g.code.(regs := g.code.regs + [I1])), i, s);
    }
  }

  /** Saving the right side's value and joining. */
  lemma SimSaveRight(c: Code, ops: FloatOps, g: Gen, slot: nat, merge: nat, cell: nat, op: Operand, a: Val, v: Val, s: State)
    requires At(g, s) && Open(g) && Fetch(s.cur, op) == Got(v) && Saved(s.cur, slot, cell, a)
    requires Open(Emit(g, Store(op, slot))) && Extends(Emit(g, Store(op, slot)).code, c)
    requires Extends(Emit(Emit(g, Store(op, slot)), Br(merge)).code, c)
    ensures var t := Run(c, ops, s, 2);
      && AtStart(t, merge) && Keeps(g, s, t) && t.out == s.out && Saved(t.cur, slot, cell, v)
      && t.cur.trail == s.cur.trail + [merge]
      && |t.cur.cells| == |s.cur.cells|
      && forall k :: 0 <= k < |s.cur.cells| && k != cell ==> t.cur.cells[k] == s.cur.cells[k]
  {
    StepStore(c, ops, g, op, slot, v, s);
    var s1 := Run(c, ops, s, 1);
    FetchInstr(c, ops, Emit(g, Store(op, slot)), Br(merge), s1);
    RunTwice(c, ops, s, 1, 1);
  }
}
