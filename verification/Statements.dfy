/** The emitted instructions of the simple statements do to the machine what the statements do to
    the environment. */
module Statements {
  import opened Wrappers
  import opened Values
  import opened Ast
  import opened Source
  import opened Ir
  import opened Lowering
  import opened Shape
  import opened Visits
  import opened Matching
  import opened Operators
  import opened ShortCircuit
  import opened Scoping

  // ----- the environment -----

  lemma CellsDistinct(g: Gen, env: Env, fr: Frame, x: string, y: string)
    requires Match(g, env, fr) && x in env && y in env && x != y
    ensures CellOf(g, fr, x) != CellOf(g, fr, y)
  {
  }

  /** Storing into a variable's cell assigns the variable. */
  lemma MatchAssigned(g: Gen, h: Gen, env: Env, x: string, v: Val, s: State, t: State)
    requires Match(g, env, s.cur) && x in env
    requires h.scopes == g.scopes && NextReg(g) <= NextReg(h)
    requires t.cur.regs == s.cur.regs
    requires t.cur.cells == s.cur.cells[CellOf(g, s.cur, x) := Some(v)]
    ensures Match(h, env[x := v], t.cur)
  {
    var env1 := env[x := v];
    assert VarMatches(g, env, s.cur, x);
    forall y | y in env1 ensures VarMatches(h, env1, t.cur, y) && CellOf(h, t.cur, y) == CellOf(g, s.cur, y) {
      assert VarMatches(g, env, s.cur, y);
      if y != x {
        CellsDistinct(g, env, s.cur, x, y);
      }
    }
  }

  /** Binding a new name to a fresh cell declares the variable. */
  lemma MatchDeclared(g: Gen, h: Gen, env: Env, x: string, slot: nat, cell: nat, v: Val, s: State, t: State)
    requires Match(g, env, s.cur) && g.scopes != []
    requires h.scopes == Declare(g.scopes, x, slot) && NextReg(g) <= slot < NextReg(h)
    requires Keeps(g, s, t) && |s.cur.cells| <= cell
    requires forall k :: 0 <= k < |s.cur.cells| ==> t.cur.cells[k] == s.cur.cells[k]
    requires Saved(t.cur, slot, cell, v)
    ensures Match(h, env[x := v], t.cur)
  {
    LookupDeclared(g.scopes, x, slot);
    var env1 := env[x := v];
    forall y | y in env1
      ensures VarMatches(h, env1, t.cur, y)
      ensures CellOf(h, t.cur, y) == if y == x then cell else CellOf(g, s.cur, y)
    {
      if y != x {
        assert VarMatches(g, env, s.cur, y);
      }
    }
    forall y, z | y in env1 && z in env1 && y != z ensures CellOf(h, t.cur, y) != CellOf(h, t.cur, z) {
      if y != x {
        assert VarMatches(g, env, s.cur, y);
      }
      if z != x {
        assert VarMatches(g, env, s.cur, z);
      }
      if y != x && z != x {
        CellsDistinct(g, env, s.cur, y, z);
      }
    }
  }

  /** Forgetting the names declared inside. */
  lemma MatchRestricted(g: Gen, h: Gen, k: Gen, env: Env, env1: Env, s: State, t: State)
    requires Match(g, env, s.cur) && Match(h, env1, t.cur)
    requires k.scopes == g.scopes && NextReg(g) <= NextReg(k)
    requires forall x :: x in env ==> Lookup(h.scopes, x) == Lookup(g.scopes, x)
    requires env.Keys <= env1.Keys
    ensures Match(k, Restrict(env1, env.Keys), t.cur)
    ensures Restrict(env1, env.Keys).Keys == env.Keys
  {
    var env2 := Restrict(env1, env.Keys);
    forall x | x in env2 ensures VarMatches(k, env2, t.cur, x) && CellOf(k, t.cur, x) == CellOf(h, t.cur, x) {
      assert VarMatches(g, env, s.cur, x);
      assert VarMatches(h, env1, t.cur, x);
    }
    forall x, y | x in env2 && y in env2 && x != y ensures CellOf(k, t.cur, x) != CellOf(k, t.cur, y) {
      CellsDistinct(h, env1, t.cur, x, y);
    }
  }

  // ----- assignment -----

  function Assigned(ops: FloatOps, t: TType, from: TType, v: Val): Val {
    if t != from then Convert(ops, v, t) else v
  }

  lemma SimConversion(c: Code, ops: FloatOps, g: Gen, op: Operand, from: TType, to: TType, v: Val, s: State)
    returns (n: nat)
    requires At(g, s) && Open(g) && HasValue(g, s.cur, op, v)
    requires Extends(LowerConversion(g, op, from, to).g.code, c)
    ensures ExprDone(g, LowerConversion(g, op, from, to), s, Run(c, ops, s, n), Assigned(ops, to, from, v))
    ensures Run(c, ops, s, n).out == s.out
  {
    if from != to {
      n := SimCast(c, ops, g, op, to, v, s);
    } else {
      n := 0;
    }
  }

  /** A statement that completed, with the environment `env` afterwards. */
  ghost predicate StmtDone(g: Gen, h: Gen, s: State, t: State, env: Env) {
    At(h, t) && Match(h, env, t.cur) && Keeps(g, s, t)
  }

  lemma SimReassign(c: Code, ops: FloatOps, g: Gen, x: string, t: TType, from: TType, op: Operand,
                    v: Val, env: Env, s: State, lo: nat) returns (n: nat)
    requires At(g, s) && Ready(g, lo) && Match(g, env, s.cur) && HasValue(g, s.cur, op, v)
    requires Lookup(g.scopes, x).Some? && x in env && Extends(LowerAssign(g, x, t, from, op).code, c)
    ensures StmtDone(g, LowerAssign(g, x, t, from, op), s, Run(c, ops, s, n), env[x := Assigned(ops, t, from, v)])
    ensures Run(c, ops, s, n).out == s.out
  {
    hide Extends, LowerConversion, Terminated, Grows, Match;
    var slot := SlotOf(g, x);
    var r := LowerConversion(g, op, from, t);
    ShapeConversion(g, op, from, t, lo);
    ExtendsEmit(c, r.g, Store(r.operand.value, slot));
    n := SimConversion(c, ops, g, op, from, t, v, s);
    var s1 := Run(c, ops, s, n);
    GrowsRegs(g, r.g);
    MatchKept(g, r.g, env, s, s1);
    assert VarMatches(r.g, env, s1.cur, x);
    StepStore(c, ops, r.g, r.operand.value, slot, Assigned(ops, t, from, v), s1);
    var s2 := Run(c, ops, s1, 1);
    RunTwice(c, ops, s, n, 1);
    KeepsTransitive(g, r.g, s, s1, s2);
    MatchAssigned(r.g, Emit(r.g, Store(r.operand.value, slot)), env, x, Assigned(ops, t, from, v), s1, s2);
    n := n + 1;
  }

  lemma GrowsRegs(b: Gen, g: Gen)
    requires Grows(b, g)
    ensures b.code.regs <= g.code.regs && NextReg(b) <= NextReg(g)
  {
  }

  lemma DeclareStages(c: Code, g: Gen, x: string, t: TType, from: TType, op: Operand, lo: nat)
    requires Ready(g, lo) && Lookup(g.scopes, x).None? && Extends(LowerAssign(g, x, t, from, op).code, c)
    ensures var slot, lt := NextReg(g), ToLType(t);
      var g1 := EmitDef(g, PtrTo(lt), Alloca(slot, lt));
      var r := LowerConversion(g1, op, from, t);
      && Open(g) && Open(g1) && Open(r.g) && Extends(g1.code, c) && Extends(r.g.code, c)
      && Extends(Emit(r.g, Store(r.operand.value, slot)).code, c)
      && g.code.regs <= g1.code.regs && NextReg(g1) == slot + 1 && NextReg(g1) <= NextReg(r.g)
      && r.g.scopes == g.scopes
  {
    var slot, lt := NextReg(g), ToLType(t);
    var g1 := EmitDef(g, PtrTo(lt), Alloca(slot, lt));
    ShapeDef(g, PtrTo(lt), Alloca(slot, lt), lo);
    var r := LowerConversion(g1, op, from, t);
    ShapeConversion(g1, op, from, t, lo);
    ExtendsEmit(c, r.g, Store(r.operand.value, slot));
    ExtendsTransitive(g1.code, r.g.code, c);
  }

  lemma SimDeclare(c: Code, ops: FloatOps, g: Gen, x: string, t: TType, from: TType, op: Operand,
                   v: Val, env: Env, s: State, lo: nat) returns (n: nat)
    requires At(g, s) && Ready(g, lo) && Match(g, env, s.cur) && HasValue(g, s.cur, op, v) && g.scopes != []
    requires Lookup(g.scopes, x).None? && Extends(LowerAssign(g, x, t, from, op).code, c)
    ensures StmtDone(g, LowerAssign(g, x, t, from, op), s, Run(c, ops, s, n), env[x := Assigned(ops, t, from, v)])
    ensures Run(c, ops, s, n).out == s.out
  {
    DeclareStages(c, g, x, t, from, op, lo);
    hide Extends, Ready, LowerConversion, Match, Terminated, Keeps, KeepsCells;
    var slot, lt := NextReg(g), ToLType(t);
    var g1 := EmitDef(g, PtrTo(lt), Alloca(slot, lt));
    var r := LowerConversion(g1, op, from, t);
    StepAlloca(c, ops, g, lt, s);
    var s1 := Run(c, ops, s, 1);
    ValueKept(g, g1, op, v, s, s1);
    n := SimInitialise(c, ops, g, g1, x, t, from, op, v, env, s, s1);
    RunTwice(c, ops, s, 1, n);
    n := n + 1;
  }

  lemma SimInitialise(c: Code, ops: FloatOps, g: Gen, g1: Gen, x: string, t: TType, from: TType, op: Operand,
                      v: Val, env: Env, s: State, s1: State) returns (n: nat)
    requires Match(g, env, s.cur) && g.scopes != []
    requires Keeps(g, s, s1) && s1.cur.cells == s.cur.cells + [None] && NextReg(g1) == NextReg(g) + 1
    requires NextReg(g) in s1.cur.regs && s1.cur.regs[NextReg(g)] == Pointer(|s.cur.cells|)
    requires At(g1, s1) && Open(g1) && HasValue(g1, s1.cur, op, v)
    requires var r := LowerConversion(g1, op, from, t);
      && r.g.scopes == g.scopes && NextReg(g1) <= NextReg(r.g) && Open(r.g)
      && Extends(r.g.code, c) && Extends(Emit(r.g, Store(r.operand.value, NextReg(g))).code, c)
    ensures var r, u := LowerConversion(g1, op, from, t), Run(c, ops, s1, n);
      var g2 := Emit(r.g, Store(r.operand.value, NextReg(g)));
      && StmtDone(g, g2.(scopes := Declare(g2.scopes, x, NextReg(g))), s, u, env[x := Assigned(ops, t, from, v)])
      && u.out == s1.out
  {
    hide Extends, Match, Terminated, LowerConversion, Keeps, KeepsCells;
    var r := LowerConversion(g1, op, from, t);
    n := SimConversion(c, ops, g1, op, from, t, v, s1);
    SimBind(c, ops, g, g1, r, x, Assigned(ops, t, from, v), env, s, s1, Run(c, ops, s1, n));
    RunTwice(c, ops, s1, n, 1);
    n := n + 1;
  }

  /** The last step of a declaration: the value goes into the new cell, and the name is bound. */
  lemma SimBind(c: Code, ops: FloatOps, g: Gen, g1: Gen, r: Lowered, x: string, v: Val, env: Env, s: State, s1: State, s2: State)
    requires Match(g, env, s.cur) && g.scopes != [] && r.g.scopes == g.scopes
    requires Keeps(g, s, s1) && s1.cur.cells == s.cur.cells + [None] && NextReg(g1) == NextReg(g) + 1
    requires NextReg(g) in s1.cur.regs && s1.cur.regs[NextReg(g)] == Pointer(|s.cur.cells|)
    requires ExprDone(g1, r, s1, s2, v) && NextReg(g1) <= NextReg(r.g)
    requires Open(r.g) && Extends(Emit(r.g, Store(r.operand.value, NextReg(g))).code, c)
    ensures var g2, t := Emit(r.g, Store(r.operand.value, NextReg(g))), Run(c, ops, s2, 1);
      StmtDone(g, g2.(scopes := Declare(g2.scopes, x, NextReg(g))), s, t, env[x := v]) && t.out == s2.out
  {
    hide Extends, Match, Terminated;
    var slot := NextReg(g);
    StepStore(c, ops, r.g, r.operand.value, slot, v, s2);
    var s3 := Run(c, ops, s2, 1);
    KeepsTransitive(g, g1, s, s1, s2);
    KeepsTransitive(g, r.g, s, s2, s3);
    var g2 := Emit(r.g, Store(r.operand.value, slot));
    MatchDeclared(g, g2.(scopes := Declare(g2.scopes, x, slot)), env, x, slot, |s.cur.cells|, v, s, s3);
  }

  lemma SimAssign(c: Code, ops: FloatOps, g: Gen, x: string, t: TType, from: TType, op: Operand,
                  v: Val, env: Env, s: State, lo: nat) returns (n: nat)
    requires At(g, s) && Ready(g, lo) && Match(g, env, s.cur) && HasValue(g, s.cur, op, v) && g.scopes != []
    requires Extends(LowerAssign(g, x, t, from, op).code, c)
    requires Lookup(g.scopes, x).Some? ==> x in env
    ensures StmtDone(g, LowerAssign(g, x, t, from, op), s, Run(c, ops, s, n), env[x := Assigned(ops, t, from, v)])
    ensures Run(c, ops, s, n).out == s.out
  {
    if Lookup(g.scopes, x).Some? {
      n := SimReassign(c, ops, g, x, t, from, op, v, env, s, lo);
    } else {
      n := SimDeclare(c, ops, g, x, t, from, op, v, env, s, lo);
    }
  }

  // ----- print and return -----

  lemma SimPrint(c: Code, ops: FloatOps, g: Gen, t: TType, op: Operand, v: Val, env: Env, s: State, lo: nat)
    returns (n: nat)
    requires At(g, s) && Ready(g, lo) && Match(g, env, s.cur) && HasValue(g, s.cur, op, v)
    requires Extends(LowerPrint(g, t, op).code, c)
    ensures var u := Run(c, ops, s, n);
      match Shown(ops, t, v)
      case None => u.status == Faulted(TypeMismatch) && u.out == s.out && u.callers == s.callers
      case Some(e) => StmtDone(g, LowerPrint(g, t, op), s, u, env) && u.out == s.out + [e]
  {
    if t == FLOAT {
      n := SimPrintFloat(c, ops, g, op, v, env, s, lo);
    } else if t == BOOL {
      n := SimPrintBool(c, ops, g, op, v, env, s, lo);
    } else {
      StepPrintInt(c, ops, g, op, v, env, s);
      n := 1;
    }
  }

  lemma StepPrintInt(c: Code, ops: FloatOps, g: Gen, op: Operand, v: Val, env: Env, s: State)
    requires At(g, s) && Open(g) && Match(g, env, s.cur) && Fetch(s.cur, op) == Got(v)
    requires Extends(Emit(g, PrintI32(op)).code, c)
    ensures var u := Run(c, ops, s, 1);
      if v.IntV? then StmtDone(g, Emit(g, PrintI32(op)), s, u, env) && u.out == s.out + [PrintInt(v.n)]
      else u.status == Faulted(TypeMismatch) && u.out == s.out && u.callers == s.callers
  {
    FetchInstr(c, ops, g, PrintI32(op), s);
    if v.IntV? {
      MatchKept(g, Emit(g, PrintI32(op)), env, s, Run(c, ops, s, 1));
    }
  }

  lemma SimPrintBool(c: Code, ops: FloatOps, g: Gen, op: Operand, v: Val, env: Env, s: State, lo: nat)
    returns (n: nat)
    requires At(g, s) && Ready(g, lo) && Match(g, env, s.cur) && HasValue(g, s.cur, op, v)
    requires Extends(LowerPrint(g, BOOL, op).code, c)
    ensures var u := Run(c, ops, s, n);
      if v.BoolV? then
        StmtDone(g, LowerPrint(g, BOOL, op), s, u, env) && u.out == s.out + [PrintInt(if v.b then 1 else 0)]
      else u.status == Faulted(TypeMismatch) && u.out == s.out && u.callers == s.callers
  {
    hide Extends, Match, Terminated;
    var i := Op1(NextReg(g), ZExtI, op);
    var g1 := EmitDef(g, I32T, i);
    ShapeDef(g, I32T, i, lo);
    ExtendsEmit(c, g1, PrintI32(Reg(NextReg(g))));
    if v.BoolV? {
      var x := IntV(if v.b then 1 else 0);
      StepOp1(c, ops, g, I32T, ZExtI, op, v, x, s);
      var s1 := Run(c, ops, s, 1);
      MatchKept(g, g1, env, s, s1);
      StepPrintInt(c, ops, g1, Reg(NextReg(g)), x, env, s1);
      RunTwice(c, ops, s, 1, 1);
      KeepsTransitive(g, g1, s, s1, Run(c, ops, s1, 1));
      n := 2;
    } else {
      FetchInstr(c, ops, g.(code := g.code.(regs := g.code.regs + [I32T])), i, s);
      n := 1;
    }
  }

  lemma SimPrintFloat(c: Code, ops: FloatOps, g: Gen, op: Operand, v: Val, env: Env, s: State, lo: nat)
    returns (n: nat)
    requires At(g, s) && Ready(g, lo) && Match(g, env, s.cur) && HasValue(g, s.cur, op, v)
    requires Extends(LowerPrint(g, FLOAT, op).code, c)
    ensures var u := Run(c, ops, s, n);
      if v.FloatV? then
        StmtDone(g, LowerPrint(g, FLOAT, op), s, u, env) && u.out == s.out + [PrintDouble(ops.extend(v.f))]
      else u.status == Faulted(TypeMismatch) && u.out == s.out && u.callers == s.callers
  {
    hide Extends, Match, Terminated;
    var i, dst := FPExt(NextReg(g), op), NextReg(g);
    var g1 := EmitDef(g, F64T, i);
    ShapeDef(g, F64T, i, lo);
    ExtendsEmit(c, g1, PrintF64(dst));
    FetchInstr(c, ops, g.(code := g.code.(regs := g.code.regs + [F64T])), i, s);
    n := 1;
    if v.FloatV? {
      var s1 := Run(c, ops, s, 1);
      FetchInstr(c, ops, g1, PrintF64(dst), s1);
      RunTwice(c, ops, s, 1, 1);
      var s2 := Run(c, ops, s1, 1);
      MatchKept(g, Emit(g1, PrintF64(dst)), env, s, s2);
      n := 2;
    }
  }

  /** The next step returns `v` to the caller. */
  ghost predicate AtReturn(c: Code, ops: FloatOps, t: State, v: Val) {
    t.status.Running? && Step(c, ops, t) == PopFrame(t, v)
  }

  lemma SimReturn(c: Code, ops: FloatOps, g: Gen, ret: TType, op: Operand, v: Val, s: State, lo: nat)
    returns (n: nat)
    requires At(g, s) && Ready(g, lo) && HasValue(g, s.cur, op, v)
    requires g.cur < |g.code.fns| && g.code.fns[g.cur].ret == ToLType(ret)
    requires Extends(LowerReturn(g, op).code, c)
    ensures var u := Run(c, ops, s, n);
      AtReturn(c, ops, u, Convert(ops, v, ret)) && Keeps(g, s, u) && u.out == s.out
  {
    hide Terminated, Extends, LowerCast, Convert, Settled, Tidy;
    var r := LowerCast(g, op, ToLType(ret));
    ShapeCast(g, op, ToLType(ret), lo);
    ExtendsEmit(c, r.g, Ret(r.operand.value));
    n := SimCast(c, ops, g, op, ret, v, s);
    ReturnsNext(c, ops, r, g, s, Run(c, ops, s, n), Convert(ops, v, ret));
  }

  /** The next instruction returns the operand. */
  lemma ReturnsNext(c: Code, ops: FloatOps, r: Lowered, g: Gen, s: State, t: State, v: Val)
    requires ExprDone(g, r, s, t, v) && r.g.insert < |r.g.code.blocks| && Extends(Emit(r.g, Ret(r.operand.value)).code, c)
    ensures AtReturn(c, ops, t, v)
  {
    hide Extends;
    FetchInstr(c, ops, r.g, Ret(r.operand.value), t);
  }

  // ----- jumps -----

  lemma StepJump(c: Code, ops: FloatOps, g: Gen, l: nat, s: State)
    requires At(g, s) && g.insert < |g.code.blocks| && Extends(Emit(g, Br(l)).code, c)
    ensures Run(c, ops, s, 1) == Jump(s, l)
  {
    FetchInstr(c, ops, g, Br(l), s);
  }

  /** Arriving at the start of an empty block that becomes the insert block. */
  lemma Arrive(g: Gen, h: Gen, l: nat, env: Env, s: State)
    requires Match(g, env, s.cur) && s.status.Running?
    requires Widens(g.scopes, h.scopes) && NextReg(g) <= NextReg(h)
    requires h.insert == l && InsertBlock(h) == []
    ensures StmtDone(h, h, Jump(s, l), Jump(s, l), env) && Keeps(g, s, Jump(s, l))
  {
    MatchKept(g, h, env, s, Jump(s, l));
  }
}
