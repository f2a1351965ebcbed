/** The relation between the interpreter's environment and the machine's state at the point the
    generator has reached, and how single emitted instructions keep it. */
module Matching {
  import opened Wrappers
  import opened Values
  import opened Source
  import opened Ir
  import opened Lowering
  import opened Shape

  /** The machine is about to run whatever is emitted next. */
  ghost predicate At(g: Gen, s: State) {
    s.status.Running? && s.cur.lbl == g.insert && s.cur.pc == |InsertBlock(g)|
  }

  ghost function SlotOf(g: Gen, x: string): nat {
    var r := Lookup(g.scopes, x);
    if r.Some? then r.value else 0
  }

  ghost function CellOf(g: Gen, fr: Frame, x: string): nat {
    var r := SlotOf(g, x);
    if r in fr.regs && fr.regs[r].Pointer? then fr.regs[r].cell else 0
  }

  ghost predicate VarMatches(g: Gen, env: Env, fr: Frame, x: string)
    requires x in env
  {
    && SlotOf(g, x) < NextReg(g)
    && PointsToCell(fr, SlotOf(g, x))
    && fr.cells[CellOf(g, fr, x)] == Some(env[x])
  }

  /** The variables are names that resolve; each has a cell of its own holding its value. */
  ghost predicate Match(g: Gen, env: Env, fr: Frame) {
    && (forall x :: x in env ==> Lookup(g.scopes, x).Some?)
    && (forall x :: x in env ==> VarMatches(g, env, fr, x))
    && (forall x, y :: x in env && y in env && x != y ==> CellOf(g, fr, x) != CellOf(g, fr, y))
  }

  /** Whatever resolves in `a` resolves alike in `b`. */
  ghost predicate Widens(a: seq<Scope>, b: seq<Scope>) {
    forall x :: Lookup(a, x).Some? ==> Lookup(b, x) == Lookup(a, x)
  }

  /** `h` is a later point of the same function; its insert block may be an older one. */
  ghost predicate Later(g: Gen, h: Gen) {
    h.code.fns == g.code.fns && h.funcs == g.funcs && h.cur == g.cur && g.code.regs <= h.code.regs
  }

  lemma GrowsLater(g: Gen, h: Gen)
    requires Grows(g, h)
    ensures Later(g, h) && NextReg(g) <= NextReg(h)
  {
  }

  /** Code emitted after `g` leaves the caller, the arguments and the older registers alone. */
  ghost predicate Keeps(g: Gen, s: State, t: State) {
    && t.callers == s.callers && t.cur.args == s.cur.args && t.cur.dst == s.cur.dst
    && |s.cur.cells| <= |t.cur.cells|
    && (forall r :: r in s.cur.regs && r < NextReg(g) ==> r in t.cur.regs && t.cur.regs[r] == s.cur.regs[r])
  }

  /** An expression moreover writes no existing cell. */
  ghost predicate KeepsCells(s: State, t: State) {
    s.cur.cells <= t.cur.cells
  }

  ghost predicate Known(g: Gen, op: Operand) {
    !op.Arg? && (op.Reg? ==> op.r < NextReg(g))
  }

  /** The operand can be read, has value `v`, and its static type is the type of `v`. */
  ghost predicate HasValue(g: Gen, fr: Frame, op: Operand, v: Val) {
    Known(g, op) && Fetch(fr, op) == Got(v) && OperandType(g, op) == TypeOfVal(v)
  }

  /** Between these two moments of a frame only blocks of these labels have been jumped to. */
  ghost predicate Trailed(a: Frame, b: Frame, lo: nat, hi: nat) {
    a.trail <= b.trail && forall j :: |a.trail| <= j < |b.trail| ==> lo <= b.trail[j] < hi
  }

  /** The same frame at another point of the visit, reached through blocks created in between. */
  ghost predicate Along(g: Gen, h: Gen, s: State, t: State) {
    t.callers == s.callers && NextLabel(g) <= NextLabel(h) && Trailed(s.cur, t.cur, NextLabel(g), NextLabel(h))
  }

  /** The callers of `s` still wait in `t`. */
  ghost predicate Above(s: State, t: State) {
    |s.callers| <= |t.callers| && t.callers[|t.callers| - |s.callers|..] == s.callers
  }

  /** The frame that has this many callers. */
  function FrameAt(t: State, depth: nat): Frame {
    if depth < |t.callers| then t.callers[|t.callers| - 1 - depth] else t.cur
  }

  /** The machine has stopped, or goes on, somewhere in the code visited from `g` to `h` or in a
      function called from there. */
  ghost predicate HaltsIn(g: Gen, h: Gen, s: State, t: State) {
    Above(s, t) && Trailed(s.cur, FrameAt(t, |s.callers|), NextLabel(g), NextLabel(h))
  }

  lemma AlongThen(g: Gen, h: Gen, k: Gen, s: State, t: State, u: State)
    requires Along(g, h, s, t) && Along(h, k, t, u)
    ensures Along(g, k, s, u)
  {
  }

  lemma HaltsLater(g: Gen, h: Gen, k: Gen, m: Gen, s: State, t: State, u: State)
    requires Along(g, h, s, t) && HaltsIn(h, k, t, u) && NextLabel(h) <= NextLabel(k) <= NextLabel(m)
    ensures HaltsIn(g, m, s, u)
  {
  }

  /** From `s`, at the point `g`, the machine has reached `t`, where the operand of `r` is `v`. */
  ghost predicate ExprDone(g: Gen, r: Lowered, s: State, t: State, v: Val) {
    && At(r.g, t) && Keeps(g, s, t) && KeepsCells(s, t) && Along(g, r.g, s, t)
    && r.operand.Some? && HasValue(r.g, t.cur, r.operand.value, v)
  }

  /** How the machine stops, or does not, when the interpreter gives up. */
  ghost predicate StopsAs(t: State, why: Halt, n: nat, fuel: nat) {
    match why
    case Timeout => t.status.Running? && n >= fuel
    case FellOff => t.status == ReachedUnreachable
    case DivByZero => t.status == Faulted(DivisionByZero)
    case IllTyped => t.status == Faulted(TypeMismatch)
    case Unbound => false
  }

  // ----- facts about the relation -----

  lemma KeepsTransitive(g: Gen, h: Gen, s: State, t: State, u: State)
    requires Keeps(g, s, t) && Keeps(h, t, u) && NextReg(g) <= NextReg(h)
    ensures Keeps(g, s, u)
    ensures KeepsCells(s, t) && KeepsCells(t, u) ==> KeepsCells(s, u)
  {
  }

  /** Nothing visible has changed. */
  lemma MatchKept(g: Gen, h: Gen, env: Env, s: State, t: State)
    requires Match(g, env, s.cur) && Widens(g.scopes, h.scopes) && NextReg(g) <= NextReg(h)
    requires Keeps(g, s, t) && KeepsCells(s, t)
    ensures Match(h, env, t.cur)
  {
    forall x | x in env ensures VarMatches(h, env, t.cur, x) && CellOf(h, t.cur, x) == CellOf(g, s.cur, x) {
      assert VarMatches(g, env, s.cur, x);
    }
  }

  lemma ValueKept(g: Gen, h: Gen, op: Operand, v: Val, s: State, t: State)
    requires HasValue(g, s.cur, op, v) && g.code.regs <= h.code.regs && Keeps(g, s, t)
    ensures HasValue(h, t.cur, op, v)
  {
  }

  // ----- single steps -----

  lemma FetchInstr(c: Code, ops: FloatOps, g: Gen, i: Instr, s: State)
    requires At(g, s) && g.insert < |g.code.blocks| && Extends(Emit(g, i).code, c)
    ensures Run(c, ops, s, 1) == Step(c, ops, s) == Perform(c, ops, s, i)
  {
    var code := Emit(g, i).code.blocks[g.insert].code;
    assert code <= c.blocks[g.insert].code;
    assert code[|InsertBlock(g)|] == i;
    assert Run(c, ops, s, 1) == Run(c, ops, Step(c, ops, s), 0);
  }

  lemma ExtendsEmit(c: Code, g: Gen, i: Instr)
    requires Extends(Emit(g, i).code, c) && g.insert < |g.code.blocks|
    ensures Extends(g.code, c)
  {
    GrowsRefl(g);
    GrowsEmit(g, g, i);
    ExtendsTransitive(g.code, Emit(g, i).code, c);
  }

  /** An instruction that defines the next register. */
  lemma StepDef(c: Code, ops: FloatOps, g: Gen, t: LType, i: Instr, v: Val, s: State)
    requires At(g, s) && g.insert < |g.code.blocks| && Extends(EmitDef(g, t, i).code, c)
    requires Perform(c, ops, s, i) == s.(cur := SetReg(s.cur, NextReg(g), Data(v))) && TypeOfVal(v) == t
    ensures ExprDone(g, Lowered(EmitDef(g, t, i), Some(Reg(NextReg(g)))), s, Run(c, ops, s, 1), v)
    ensures Run(c, ops, s, 1).out == s.out
  {
    var g1 := g.(code := g.code.(regs := g.code.regs + [t]));
    FetchInstr(c, ops, g1, i, s);
  }

  /** `Op1` when the operation is defined on the value. */
  lemma StepOp1(c: Code, ops: FloatOps, g: Gen, t: LType, op: UnInstr, a: Operand, x: Val, v: Val, s: State)
    requires At(g, s) && g.insert < |g.code.blocks|
    requires Extends(EmitDef(g, t, Op1(NextReg(g), op, a)).code, c)
    requires Fetch(s.cur, a) == Got(x) && RunOp1(ops, op, x) == Got(v) && TypeOfVal(v) == t
    ensures ExprDone(g, Lowered(EmitDef(g, t, Op1(NextReg(g), op, a)), Some(Reg(NextReg(g)))), s, Run(c, ops, s, 1), v)
    ensures Run(c, ops, s, 1).out == s.out
  {
    StepDef(c, ops, g, t, Op1(NextReg(g), op, a), v, s);
  }
}
