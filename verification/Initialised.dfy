/** Definite initialisation: on every path through the flow graph, taken or not, loop edges
    included, a register is written, a cell allocated and stored to before it is used.

    The proof carries a certificate: for every block the facts that hold on every way into it, or
    that there is no way into it. */
module Initialised {
  import opened Wrappers
  import opened Ast
  import opened Ir
  import opened Lowering
  import opened Shape
  import opened Visits
  import opened Stages
  import opened Scoping
  import opened FlowGraph
  import opened Paths
  import opened Declarations
  import Correctness

  /** `None`: no path from the function's entry leads into the block. */
  type Entry = Option<set<Fact>>

  // ----- certificates -----

  /** What the certificate says of one instruction: its uses are covered, and what is promised at
      the targets it may jump to holds.  No `unreachable` is among them: it comes after the body. */
  ghost predicate Covers(blocks: seq<BasicBlock>, into: seq<Entry>, lo: nat, l: nat, k: nat)
    requires l < |blocks| == |into| && k < |blocks[l].code|
  {
    into[l].Some? ==>
      var facts, i := Flow(into[l].value, blocks[l].code[..k]), blocks[l].code[k];
      && Uses(i) <= facts && !i.Unreachable?
      && forall t :: t in i.Targets() ==> lo <= t < |into| && Promised(into[t], facts)
  }

  /** These facts are enough to enter. */
  ghost predicate Promised(e: Entry, facts: set<Fact>) {
    e.Some? && e.value <= facts
  }

  ghost predicate Certified(blocks: seq<BasicBlock>, into: seq<Entry>, lo: nat) {
    && |into| == |blocks|
    && forall l, k :: lo <= l < |blocks| && 0 <= k < |blocks[l].code| ==> Covers(blocks, into, lo, l, k)
  }

  /** The facts at the point where the next instruction goes. */
  ghost function Here(g: Gen, into: seq<Entry>): set<Fact> {
    if Reached(g, into) then Flow(into[g.insert].value, InsertBlock(g)) else {}
  }

  /** Some path may lead to the insert block. */
  ghost predicate Reached(g: Gen, into: seq<Entry>) {
    g.insert < |into| && into[g.insert].Some?
  }

  /** The cells of these names. */
  ghost function Known(scopes: seq<Scope>, names: set<string>): set<Fact> {
    (set x | x in names && Lookup(scopes, x).Some? :: Allocated(Lookup(scopes, x).value))
    + (set x | x in names && Lookup(scopes, x).Some? :: Stored(Lookup(scopes, x).value))
  }

  ghost predicate Below(facts: set<Fact>, n: nat) {
    forall f :: f in facts ==> f.r < n
  }

  /** The certificate of a visit in progress. */
  ghost predicate Fine(g: Gen, into: seq<Entry>, lo: nat) {
    |into| == |g.code.blocks| && Certified(g.code.blocks, into, lo) && g.insert < |g.code.blocks|
  }

  /** ... and the sure names are initialised here. */
  ghost predicate Live(g: Gen, into: seq<Entry>, sure: set<string>, lo: nat) {
    && Fine(g, into, lo) && Reached(g, into)
    && Known(g.scopes, sure) <= Here(g, into) && Below(Here(g, into), NextReg(g))
  }

  /** Facts are only added. */
  ghost predicate Kept(g: Gen, into: seq<Entry>, h: Gen, later: seq<Entry>) {
    into <= later && Here(g, into) <= Here(h, later)
  }

  ghost predicate ExprLive(g: Gen, into: seq<Entry>, r: Lowered, later: seq<Entry>, sure: set<string>, lo: nat) {
    && Live(r.g, later, sure, lo) && Kept(g, into, r.g, later)
    && (r.operand.Some? ==> Needs(r.operand.value) <= Here(r.g, later))
  }

  lemma KnownHas(scopes: seq<Scope>, x: string, names: set<string>)
    requires x in names && Lookup(scopes, x).Some?
    ensures var r := Lookup(scopes, x).value; Allocated(r) in Known(scopes, names) && Stored(r) in Known(scopes, names)
  {
  }

  /** Fewer names, and the same cells for them. */
  lemma KnownSame(a: seq<Scope>, all: set<string>, b: seq<Scope>, some: set<string>)
    requires some <= all && forall x :: x in some ==> Lookup(b, x) == Lookup(a, x)
    ensures Known(b, some) <= Known(a, all)
  {
  }

  // ----- the builder's steps -----

  /** An instruction whose uses are covered. */
  lemma EmitCovered(g: Gen, into: seq<Entry>, i: Instr, lo: nat)
    requires Fine(g, into, lo)
    requires Reached(g, into) ==> Uses(i) <= Here(g, into) && !i.Unreachable?
    requires Reached(g, into) ==> forall t :: t in i.Targets() ==> lo <= t < |into| && Promised(into[t], Here(g, into))
    ensures Fine(Emit(g, i), into, lo) && (Reached(Emit(g, i), into) <==> Reached(g, into))
    ensures Reached(g, into) ==> Here(Emit(g, i), into) == AfterInstr(Here(g, into), i)
  {
    hide Uses, AfterInstr;
    var a, b := g.code.blocks, Emit(g, i).code.blocks;
    forall l, k | lo <= l < |b| && 0 <= k < |b[l].code| ensures Covers(b, into, lo, l, k) {
      if k < |a[l].code| {
        assert b[l].code[..k] == a[l].code[..k];
        assert Covers(a, into, lo, l, k);
      } else {
        assert b[l].code[..k] == a[l].code;
      }
    }
    if Reached(g, into) {
      FlowSnoc(into[g.insert].value, a[g.insert].code, i);
    }
  }

  predicate Quiet(i: Instr) { i.Store? || i.PrintI32? || i.PrintF64? || i.Br? || i.CondBr? || i.Ret? }

  /** An instruction that writes no register. */
  lemma EmitLive(g: Gen, into: seq<Entry>, i: Instr, sure: set<string>, lo: nat)
    requires Live(g, into, sure, lo) && Uses(i) <= Here(g, into) && Quiet(i)
    requires i.Store? ==> i.ptr < NextReg(g)
    requires forall t :: t in i.Targets() ==> lo <= t < |into| && Promised(into[t], Here(g, into))
    ensures Live(Emit(g, i), into, sure, lo) && Kept(g, into, Emit(g, i), into)
    ensures Here(Emit(g, i), into) == if i.Store? then Here(g, into) + {Stored(i.ptr)} else Here(g, into)
  {
    hide Certified, Covers, Flow, Known;
    EmitCovered(g, into, i, lo);
  }

  lemma DefLive(g: Gen, into: seq<Entry>, t: LType, i: Instr, sure: set<string>, lo: nat)
    requires Live(g, into, sure, lo) && Uses(i) <= Here(g, into) && Writes(i, NextReg(g))
    ensures ExprLive(g, into, Lowered(EmitDef(g, t, i), Some(Reg(NextReg(g)))), into, sure, lo)
    ensures i.Alloca? ==> Allocated(NextReg(g)) in Here(EmitDef(g, t, i), into)
  {
    hide Certified, Covers, Flow, Known;
    var h := g.(code := g.code.(regs := g.code.regs + [t]));
    assert Here(h, into) == Here(g, into);
    EmitCovered(h, into, i, lo);
    assert Stored(NextReg(g)) !in Here(g, into) && Allocated(NextReg(g)) !in Here(g, into);
  }

  lemma CreateFine(g: Gen, into: seq<Entry>, parent: Option<nat>, e: Entry, lo: nat)
    requires Fine(g, into, lo)
    ensures Fine(CreateBlock(g, parent), into + [e], lo)
    ensures Reached(CreateBlock(g, parent), into + [e]) <==> Reached(g, into)
    ensures Here(CreateBlock(g, parent), into + [e]) == Here(g, into)
  {
    hide Flow, Uses;
    var a, b := g.code.blocks, CreateBlock(g, parent).code.blocks;
    forall l, k | lo <= l < |b| && 0 <= k < |b[l].code| ensures Covers(b, into + [e], lo, l, k) {
      assert Covers(a, into, lo, l, k);
    }
  }

  lemma CreateLive(g: Gen, into: seq<Entry>, parent: Option<nat>, e: Entry, sure: set<string>, lo: nat)
    requires Live(g, into, sure, lo)
    ensures Live(CreateBlock(g, parent), into + [e], sure, lo)
    ensures Here(CreateBlock(g, parent), into + [e]) == Here(g, into)
  {
    hide Certified, Flow, Known;
    CreateFine(g, into, parent, e, lo);
  }

  /** Into an empty block: what is promised on the way in is what holds. */
  lemma EnterFine(g: Gen, into: seq<Entry>, l: nat, lo: nat)
    requires Fine(g, into, lo) && l < |g.code.blocks| && g.code.blocks[l].code == []
    ensures Fine(SetInsert(g, l), into, lo) && Fine(SetInsert(Attach(g, l), l), into, lo)
    ensures Reached(SetInsert(g, l), into) <==> into[l].Some?
    ensures into[l].Some? ==> Here(SetInsert(g, l), into) == Here(SetInsert(Attach(g, l), l), into) == into[l].value
  {
    hide Uses;
    var a, b := g.code.blocks, Attach(g, l).code.blocks;
    forall m, k | lo <= m < |b| && 0 <= k < |b[m].code| ensures Covers(b, into, lo, m, k) {
      assert Covers(a, into, lo, m, k);
    }
  }

  lemma EnterLive(g: Gen, into: seq<Entry>, l: nat, sure: set<string>, lo: nat)
    requires Fine(g, into, lo) && l < |g.code.blocks| && g.code.blocks[l].code == []
    requires into[l].Some? && Known(g.scopes, sure) <= into[l].value && Below(into[l].value, NextReg(g))
    ensures Live(SetInsert(g, l), into, sure, lo) && Here(SetInsert(g, l), into) == into[l].value
    ensures Live(SetInsert(Attach(g, l), l), into, sure, lo) && Here(SetInsert(Attach(g, l), l), into) == into[l].value
  {
    hide Certified, Flow, Known;
    EnterFine(g, into, l, lo);
  }

  // ----- code no path leads to -----

  ghost function Nowhere(n: nat): (into: seq<Entry>)
    ensures |into| == n && forall l :: 0 <= l < n ==> into[l].None?
  {
    seq(n, l => None)
  }

  /** A whole visit in a block that no path leads into: no path leads into the blocks it makes. */
  lemma DeadVisit(g: Gen, into: seq<Entry>, h: Gen, lo: nat) returns (later: seq<Entry>)
    requires Fine(g, into, lo) && !Reached(g, into) && Grows(g, h)
    ensures Fine(h, later, lo) && into <= later && !Reached(h, later)
  {
    hide Flow, Uses;
    later := into + Nowhere(|h.code.blocks| - |g.code.blocks|);
    var a, b := g.code.blocks, h.code.blocks;
    forall l, k | lo <= l < |b| && 0 <= k < |b[l].code| ensures Covers(b, later, lo, l, k) {
      if l < |a| && l != g.insert {
        assert b[l] == a[l];
        assert Covers(a, into, lo, l, k);
      }
    }
  }

  // ----- a certificate answers for every path -----

  /** `c` contains the certified blocks, one perhaps with an `unreachable` added at its end, and
      `entry`, where nothing is promised, is one of them. */
  ghost predicate Covered(c: Code, blocks: seq<BasicBlock>, into: seq<Entry>, lo: nat, entry: nat) {
    && |into| == |blocks| <= |c.blocks| && Certified(blocks, into, lo)
    && (forall l :: 0 <= l < |blocks| ==> SameOrEnded(blocks[l].code, c.blocks[l].code))
    && lo <= entry < |blocks| && into[entry] == Some({})
  }

  /** What is promised into the last block of a path holds there. */
  lemma {:induction false} PathFacts(c: Code, blocks: seq<BasicBlock>, into: seq<Entry>, lo: nat, path: seq<nat>)
    requires path != [] && Path(c, path) && Covered(c, blocks, into, lo, path[0])
    ensures var n := |path| - 1;
      lo <= path[n] < |blocks| && Promised(into[path[n]], Flow({}, Trace(c, path[..n])))
    decreases path
  {
    hide Flow, AfterInstr, Uses, Certified;
    var n := |path| - 1;
    if n > 0 {
      var before, m := path[..n], path[n - 1];
      PathFacts(c, blocks, into, lo, before);
      assert before[..n - 1] == path[..n - 1];
      EdgeFacts(c, blocks, into, lo, m, path[n]);
      FlowGrows(into[m].value, Flow({}, Trace(c, path[..n - 1])), c.blocks[m].code);
      FlowConcat({}, Trace(c, path[..n - 1]), c.blocks[m].code);
    }
  }

  /** What holds at the end of a block is enough for the blocks it leads to. */
  lemma EdgeFacts(c: Code, blocks: seq<BasicBlock>, into: seq<Entry>, lo: nat, m: nat, l: nat)
    requires |into| == |blocks| <= |c.blocks| && Certified(blocks, into, lo) && lo <= m < |blocks| && into[m].Some?
    requires SameOrEnded(blocks[m].code, c.blocks[m].code) && l in Successors(c, m)
    ensures lo <= l < |blocks| && Promised(into[l], Flow(into[m].value, c.blocks[m].code))
  {
    hide Uses;
    assert c.blocks[m].code == blocks[m].code;
    assert Covers(blocks, into, lo, m, |blocks[m].code| - 1);
  }

  lemma {:induction false} PathUses(c: Code, blocks: seq<BasicBlock>, into: seq<Entry>, lo: nat, path: seq<nat>)
    requires Path(c, path) && (path != [] ==> Covered(c, blocks, into, lo, path[0]))
    ensures UsesAfterDefs(Trace(c, path))
    decreases path
  {
    hide AfterInstr, Happened, Flow;
    if path != [] {
      var n := |path| - 1;
      var before, code := Trace(c, path[..n]), c.blocks[path[n]].code;
      PathUses(c, blocks, into, lo, path[..n]);
      PathFacts(c, blocks, into, lo, path);
      forall k | 0 <= k < |code| ensures Uses(code[k]) <= Flow({}, before + code[..k]) {
        if k < |blocks[path[n]].code| {
          UseCovered(blocks, into, lo, path[n], k, before);
          assert code[..k] == blocks[path[n]].code[..k];
        }
      }
      UsesAppend(before, code);
    }
  }

  lemma UseCovered(blocks: seq<BasicBlock>, into: seq<Entry>, lo: nat, l: nat, k: nat, before: seq<Instr>)
    requires |into| == |blocks| && Certified(blocks, into, lo) && lo <= l < |blocks| && k < |blocks[l].code|
    requires Promised(into[l], Flow({}, before))
    ensures Uses(blocks[l].code[k]) <= Flow({}, before + blocks[l].code[..k]) && !blocks[l].code[k].Unreachable?
  {
    hide Uses;
    assert Covers(blocks, into, lo, l, k);
    FlowGrows(into[l].value, Flow({}, before), blocks[l].code[..k]);
    FlowConcat({}, before, blocks[l].code[..k]);
  }

  lemma UsesAppend(before: seq<Instr>, code: seq<Instr>)
    requires UsesAfterDefs(before)
    requires forall k :: 0 <= k < |code| ==> Uses(code[k]) <= Flow({}, before + code[..k])
    ensures UsesAfterDefs(before + code)
  {
    hide Uses, Happened, Flow;
    var all := before + code;
    forall k, f | 0 <= k < |all| && f in Uses(all[k]) ensures Happened(all[..k], f) {
      if k < |before| {
        assert all[..k] == before[..k] && all[k] == before[k];
      } else {
        assert all[..k] == before + code[..k - |before|];
        assert all[k] == code[k - |before|];
        FlowMeans(all[..k], f);
      }
    }
  }

  // ----- expressions -----

  lemma CastLive(g: Gen, into: seq<Entry>, op: Operand, to: LType, sure: set<string>, lo: nat)
    requires Live(g, into, sure, lo) && Needs(op) <= Here(g, into)
    ensures ExprLive(g, into, LowerCast(g, op, to), into, sure, lo)
    ensures LowerCast(g, op, to).g.scopes == g.scopes
  {
    hide Fine, Flow, Known;
    if OperandType(g, op) != to {
      DefLive(g, into, to, Op1(NextReg(g), CastTo(to), op), sure, lo);
    }
  }

  lemma StrictLive(g: Gen, into: seq<Entry>, isFloat: bool, op: BinaryOp, l: Operand, r: Operand, sure: set<string>, lo: nat)
    requires Live(g, into, sure, lo) && Needs(l) <= Here(g, into) && Needs(r) <= Here(g, into)
    requires op.IsArithmetic() || op.IsRelation()
    ensures ExprLive(g, into, LowerStrict(g, isFloat, op, l, r), into, sure, lo)
  {
    hide Live, Here, LowerCast, EmitDef;
    var l1 := if isFloat then LowerCast(g, l, F32T) else Lowered(g, Some(l));
    var r1 := if isFloat then LowerCast(l1.g, r, F32T) else Lowered(l1.g, Some(r));
    if isFloat {
      CastLive(g, into, l, F32T, sure, lo);
      CastLive(l1.g, into, r, F32T, sure, lo);
    }
    DefLive(r1.g, into, ResultType(isFloat, op),
      Op2(NextReg(r1.g), SelectOp2(isFloat, op), l1.operand.value, r1.operand.value), sure, lo);
  }

  lemma SaveLive(g: Gen, into: seq<Entry>, v: Operand, sure: set<string>, lo: nat)
    requires Live(g, into, sure, lo) && Needs(v) <= Here(g, into)
    ensures var slot := NextReg(g);
      var h := Emit(EmitDef(g, PtrTo(I1), Alloca(slot, I1)), Store(v, slot));
      && Live(h, into, sure, lo) && Kept(g, into, h, into) && slot < NextReg(h)
      && Allocated(slot) in Here(h, into) && Stored(slot) in Here(h, into)
  {
    hide Certified, Flow, Known;
    var slot := NextReg(g);
    DefLive(g, into, PtrTo(I1), Alloca(slot, I1), sure, lo);
    EmitLive(EmitDef(g, PtrTo(I1), Alloca(slot, I1)), into, Store(v, slot), sure, lo);
  }

  /** Two new blocks: the first is entered, `second` is promised into the other one. */
  lemma StartTwo(g: Gen, into: seq<Entry>, second: Entry, i: Instr, sure: set<string>, lo: nat)
    requires Live(g, into, sure, lo) && lo <= NextLabel(g) && Uses(i) <= Here(g, into) && (i.Br? || i.CondBr?)
    requires forall t :: t in i.Targets() ==>
      t == NextLabel(g) || (t == NextLabel(g) + 1 && Promised(second, Here(g, into)))
    ensures var l := NextLabel(g);
      var h := SetInsert(Emit(CreateBlock(CreateBlock(g, Some(g.cur)), None), i), l);
      var later := into + [Some(Here(g, into))] + [second];
      Live(h, later, sure, lo) && Here(h, later) == Here(g, into)
  {
    hide Certified, Flow, Known;
    var l, facts := NextLabel(g), Here(g, into);
    CreateLive(g, into, Some(g.cur), Some(facts), sure, lo);
    var g1 := CreateBlock(g, Some(g.cur));
    CreateLive(g1, into + [Some(facts)], None, second, sure, lo);
    var g2, later := CreateBlock(g1, None), into + [Some(facts)] + [second];
    EmitLive(g2, later, i, sure, lo);
    EnterLive(Emit(g2, i), later, l, sure, lo);
  }

  /** The left side is saved; both new blocks are promised what holds then. */
  lemma StartLive(g: Gen, into: seq<Entry>, op: BinaryOp, v: Operand, sure: set<string>, lo: nat) returns (later: seq<Entry>)
    requires Ready(g, lo) && Live(g, into, sure, lo) && Needs(v) <= Here(g, into)
    ensures var h, slot := StartShortCircuit(g, op, v), NextReg(g);
      && Live(h, later, sure, lo) && Kept(g, into, h, later) && slot < NextReg(h)
      && |later| == |into| + 2 == NextLabel(g) + 2 && later[NextLabel(g) + 1] == Some(Here(h, later))
      && Allocated(slot) in Here(h, later) && Stored(slot) in Here(h, later)
  {
    hide Certified, Flow, Tidy, Known;
    var slot, rhs, merge := NextReg(g), NextLabel(g), NextLabel(g) + 1;
    SaveLive(g, into, v, sure, lo);
    var g1 := Emit(EmitDef(g, PtrTo(I1), Alloca(slot, I1)), Store(v, slot));
    var facts := Here(g1, into);
    later := into + [Some(facts)] + [Some(facts)];
    StartTwo(g1, into, Some(facts), if op.And? then CondBr(v, rhs, merge) else CondBr(v, merge, rhs), sure, lo);
  }

  lemma EndLive(g: Gen, into: seq<Entry>, slot: nat, merge: nat, v: Operand, sure: set<string>, lo: nat)
    requires Live(g, into, sure, lo) && Needs(v) <= Here(g, into) && lo <= merge < |g.code.blocks| && merge != g.insert
    requires g.code.blocks[merge].code == [] && Promised(into[merge], Here(g, into))
    requires Known(g.scopes, sure) <= into[merge].value
    requires slot < NextReg(g) && Allocated(slot) in into[merge].value && Stored(slot) in into[merge].value
    ensures var r := EndShortCircuit(g, slot, merge, v);
      && Live(r.g, into, sure, lo) && into[merge].value <= Here(r.g, into) && Needs(r.operand.value) <= Here(r.g, into)
  {
    hide Certified, Flow, Known;
    EmitLive(g, into, Store(v, slot), sure, lo);
    var g1 := Emit(g, Store(v, slot));
    EmitLive(g1, into, Br(merge), sure, lo);
    var g2 := Emit(g1, Br(merge));
    EnterLive(g2, into, merge, sure, lo);
    var g3 := SetInsert(Attach(g2, merge), merge);
    DefLive(g3, into, I1, Load(NextReg(g3), I1, slot), sure, lo);
  }

  lemma {:induction false} InitExpr(g: Gen, into: seq<Entry>, e: Expr, sure: set<string>, lo: nat) returns (later: seq<Entry>)
    requires Ready(g, lo) && Live(g, into, sure, lo) && NamesIn(e) <= sure && LowerExpr(g, e).g.ok
    ensures ExprLive(g, into, LowerExpr(g, e), later, sure, lo)
    decreases e
  {
    hide Fine, Flow, Known;
    later := into;
    match e
    case Var(x, t) =>
      if Lookup(g.scopes, x).Some? {
        KnownHas(g.scopes, x, sure);
        DefLive(g, into, ToLType(t), Load(NextReg(g), ToLType(t), Lookup(g.scopes, x).value), sure, lo);
      }
    case BoolLit(_) =>
    case IntLit(_) =>
    case FloatLit(_) =>
    case Binary(_, op, l, r) =>
      if op.And? || op.Or? {
        later := InitLogical(g, into, e, sure, lo);
      } else {
        later := InitStrict(g, into, e, sure, lo);
      }
    case Unary(op, sub) =>
      later := InitUnary(g, into, e, sure, lo);
    case Call(f, args, _) =>
      later := InitCall(g, into, e, sure, lo);
  }

  lemma MonadicLive(g: Gen, into: seq<Entry>, op: UnaryOp, t: TType, v: Operand, sure: set<string>, lo: nat)
    requires Live(g, into, sure, lo) && Needs(v) <= Here(g, into) && !op.Pos? && LowerMonadic(g, op, t, v).g.ok
    ensures ExprLive(g, into, LowerMonadic(g, op, t, v), into, sure, lo)
  {
    hide Live, Here, EmitDef;
    DefLive(g, into, I1, Op1(NextReg(g), NotI, v), sure, lo);
    DefLive(g, into, F32T, Op1(NextReg(g), NegF, v), sure, lo);
    DefLive(g, into, I32T, Op1(NextReg(g), NegI, v), sure, lo);
  }

  lemma {:induction false} InitUnary(g: Gen, into: seq<Entry>, e: Expr, sure: set<string>, lo: nat) returns (later: seq<Entry>)
    requires e.Unary? && Ready(g, lo) && Live(g, into, sure, lo) && NamesIn(e) <= sure && LowerExpr(g, e).g.ok
    ensures ExprLive(g, into, LowerExpr(g, e), later, sure, lo)
    decreases e, 0
  {
    hide Ready, Live, Flow, Here, LowerMonadic, Grows, Settled;
    ShapeExpr(g, e.sub, lo);
    later := InitExpr(g, into, e.sub, sure, lo);
    var r := LowerExpr(g, e.sub);
    if !e.uop.Pos? {
      MonadicLive(r.g, later, e.uop, e.sub.Type(), r.operand.value, sure, lo);
    }
  }

  lemma {:induction false} InitStrict(g: Gen, into: seq<Entry>, e: Expr, sure: set<string>, lo: nat) returns (later: seq<Entry>)
    requires e.Binary? && !e.op.And? && !e.op.Or?
    requires Ready(g, lo) && Live(g, into, sure, lo) && NamesIn(e) <= sure && LowerExpr(g, e).g.ok
    ensures ExprLive(g, into, LowerExpr(g, e), later, sure, lo)
    decreases e, 0
  {
    hide Ready, Live, Flow, Here, Grows, Settled;
    ShapeExpr(g, e.lhs, lo);
    var r1 := LowerExpr(g, e.lhs);
    ShapeExpr(r1.g, e.rhs, lo);
    var r2 := LowerExpr(r1.g, e.rhs);
    GrowsOk(r1.g, r2, lo);
    var into1 := InitExpr(g, into, e.lhs, sure, lo);
    later := InitExpr(r1.g, into1, e.rhs, sure, lo);
    StrictLive(r2.g, later, IsFloatOp(e.lhs, e.rhs), e.op, r1.operand.value, r2.operand.value, sure, lo);
  }

  lemma GrowsOk(g: Gen, r: Lowered, lo: nat)
    requires ExprShape(g, r, lo)
    ensures r.g.ok ==> g.ok && r.operand.Some?
  {
  }

  lemma {:induction false} InitLogical(g: Gen, into: seq<Entry>, e: Expr, sure: set<string>, lo: nat) returns (later: seq<Entry>)
    requires e.Binary? && (e.op.And? || e.op.Or?)
    requires Ready(g, lo) && Live(g, into, sure, lo) && NamesIn(e) <= sure && LowerExpr(g, e).g.ok
    ensures ExprLive(g, into, LowerExpr(g, e), later, sure, lo)
    decreases e, 0
  {
    hide Ready, Certified, Flow, Settled, Tidy, StartShortCircuit, EndShortCircuit, Below, Known, Terminated, LowerExpr, Extends;
    LogicalGrows(g, e, lo);
    var r1 := LowerExpr(g, e.lhs);
    var v, slot, merge := r1.operand.value, NextReg(r1.g), NextLabel(r1.g) + 1;
    var g2 := StartShortCircuit(r1.g, e.op, v);
    var r3 := LowerExpr(g2, e.rhs);
    var into1 := InitExpr(g, into, e.lhs, sure, lo);
    var into2 := StartLive(r1.g, into1, e.op, v, sure, lo);
    StrictScopes(g2, e.rhs, lo);
    later := InitExpr(g2, into2, e.rhs, sure, lo);
    EndLive(r3.g, later, slot, merge, r3.operand.value, sure, lo);
  }

  /** All operands are written. */
  ghost predicate ArgsLive(g: Gen, into: seq<Entry>, r: LoweredArgs, later: seq<Entry>, sure: set<string>, lo: nat) {
    Live(r.g, later, sure, lo) && Kept(g, into, r.g, later) && NeedsAll(r.operands) <= Here(r.g, later)
  }

  lemma {:induction false} InitCall(g: Gen, into: seq<Entry>, e: Expr, sure: set<string>, lo: nat) returns (later: seq<Entry>)
    requires e.Call? && Ready(g, lo) && Live(g, into, sure, lo) && NamesIn(e) <= sure && LowerExpr(g, e).g.ok
    ensures ExprLive(g, into, LowerExpr(g, e), later, sure, lo)
    decreases e, 0
  {
    hide Ready, Live, Flow, Here;
    var fn := g.code.fns[g.funcs[e.callee]];
    later := InitArgs(g, into, e.args, fn.params, sure, lo);
    var r := LowerArgs(g, e.args, fn.params);
    DefLive(r.g, later, fn.ret, CallFn(NextReg(r.g), g.funcs[e.callee], r.operands), sure, lo);
  }

  lemma {:induction false} InitArgs(g: Gen, into: seq<Entry>, args: seq<Expr>, params: seq<LType>, sure: set<string>, lo: nat)
    returns (later: seq<Entry>)
    requires |args| == |params| && Ready(g, lo) && Live(g, into, sure, lo) && NamesInAll(args) <= sure
    requires LowerArgs(g, args, params).g.ok
    ensures ArgsLive(g, into, LowerArgs(g, args, params), later, sure, lo)
    decreases args
  {
    hide Ready, Live, Flow, Here, LowerCast, Settled;
    later := into;
    if args != [] {
      ShapeExpr(g, args[0], lo);
      var r1 := LowerExpr(g, args[0]);
      ShapeCast(r1.g, r1.operand.value, params[0], lo);
      var r2 := LowerCast(r1.g, r1.operand.value, params[0]);
      ShapeArgs(r2.g, args[1..], params[1..], lo);
      later := InitExpr(g, into, args[0], sure, lo);
      CastLive(r1.g, later, r1.operand.value, params[0], sure, lo);
      later := InitArgs(r2.g, later, args[1..], params[1..], sure, lo);
    }
  }

  // ----- statements -----

  /** `falls`: control can get past, and then these names are sure. */
  ghost predicate StmtLive(g: Gen, into: seq<Entry>, h: Gen, later: seq<Entry>, falls: bool, sure: set<string>, lo: nat) {
    && Fine(h, later, lo) && into <= later
    && if falls then Live(h, later, sure, lo) && Here(g, into) <= Here(h, later) else Open(h) ==> !Reached(h, later)
  }

  /** A statement about to be visited where these names are bound and those sure. */
  ghost predicate ToVisit(g: Gen, into: seq<Entry>, s: Stmt, bound: set<string>, sure: set<string>, lo: nat) {
    && Ready(g, lo) && Live(g, into, sure, lo) && Resolves(g.scopes, bound) && sure <= bound
    && Assured(s, bound, sure) && LowerStmt(g, s).ok
  }

  lemma ConversionLive(g: Gen, into: seq<Entry>, v: Operand, from: TType, to: TType, sure: set<string>, lo: nat)
    requires Live(g, into, sure, lo) && Needs(v) <= Here(g, into)
    ensures ExprLive(g, into, LowerConversion(g, v, from, to), into, sure, lo)
    ensures LowerConversion(g, v, from, to).g.scopes == g.scopes
  {
    hide Live, Here, LowerCast;
    CastLive(g, into, v, ToLType(to), sure, lo);
  }

  lemma StoreLive(g: Gen, into: seq<Entry>, v: Operand, slot: nat, sure: set<string>, lo: nat)
    requires Live(g, into, sure, lo) && Needs(v) <= Here(g, into) && Allocated(slot) in Here(g, into)
    ensures var h := Emit(g, Store(v, slot));
      Live(h, into, sure, lo) && Kept(g, into, h, into) && Stored(slot) in Here(h, into)
  {
    hide Fine, Flow, Known;
    assert slot < NextReg(g) by {
      assert Allocated(slot).r == slot;
    }
    EmitLive(g, into, Store(v, slot), sure, lo);
  }

  lemma AssignLive(g: Gen, into: seq<Entry>, x: string, t: TType, from: TType, v: Operand,
                   bound: set<string>, sure: set<string>, lo: nat)
    requires Live(g, into, sure, lo) && Needs(v) <= Here(g, into)
    requires Resolves(g.scopes, bound) && sure <= bound && (x in bound ==> x in sure)
    ensures var h := LowerAssign(g, x, t, from, v); Live(h, into, sure + {x}, lo) && Kept(g, into, h, into)
  {
    hide Fine, Flow, LowerConversion, Known, Here;
    match Lookup(g.scopes, x)
    case Some(slot) =>
      KnownHas(g.scopes, x, sure);
      assert sure + {x} == sure;
      ConversionLive(g, into, v, from, t, sure, lo);
      var c := LowerConversion(g, v, from, t);
      StoreLive(c.g, into, c.operand.value, slot, sure, lo);
    case None =>
      var slot, lt := NextReg(g), ToLType(t);
      DefLive(g, into, PtrTo(lt), Alloca(slot, lt), sure, lo);
      var g1 := EmitDef(g, PtrTo(lt), Alloca(slot, lt));
      ConversionLive(g1, into, v, from, t, sure, lo);
      var c := LowerConversion(g1, v, from, t);
      StoreLive(c.g, into, c.operand.value, slot, sure, lo);
      DeclaredLive(Emit(c.g, Store(c.operand.value, slot)), into, x, slot, sure, lo);
  }

  lemma DeclaredLive(g: Gen, into: seq<Entry>, x: string, slot: nat, sure: set<string>, lo: nat)
    requires Live(g, into, sure, lo) && Allocated(slot) in Here(g, into) && Stored(slot) in Here(g, into)
    requires g.scopes != []
    ensures var h := g.(scopes := Declare(g.scopes, x, slot)); Live(h, into, sure + {x}, lo) && Here(h, into) == Here(g, into)
  {
    hide Certified, Flow;
    LookupDeclared(g.scopes, x, slot);
  }

  lemma PrintLive(g: Gen, into: seq<Entry>, t: TType, v: Operand, sure: set<string>, lo: nat)
    requires Live(g, into, sure, lo) && Needs(v) <= Here(g, into)
    ensures var h := LowerPrint(g, t, v); Live(h, into, sure, lo) && Kept(g, into, h, into)
  {
    hide Live, Here, EmitDef;
    if t == FLOAT {
      DefLive(g, into, F64T, FPExt(NextReg(g), v), sure, lo);
      EmitLive(EmitDef(g, F64T, FPExt(NextReg(g), v)), into, PrintF64(NextReg(g)), sure, lo);
    } else if t == BOOL {
      DefLive(g, into, I32T, Op1(NextReg(g), ZExtI, v), sure, lo);
      EmitLive(EmitDef(g, I32T, Op1(NextReg(g), ZExtI, v)), into, PrintI32(Reg(NextReg(g))), sure, lo);
    } else {
      EmitLive(g, into, PrintI32(v), sure, lo);
    }
  }

  lemma ReturnLive(g: Gen, into: seq<Entry>, v: Operand, sure: set<string>, lo: nat)
    requires Live(g, into, sure, lo) && Needs(v) <= Here(g, into) && g.cur < |g.code.fns|
    ensures var h := LowerReturn(g, v); Fine(h, into, lo) && !Open(h)
  {
    hide Live, Here, LowerCast, Certified;
    CastLive(g, into, v, g.code.fns[g.cur].ret, sure, lo);
    var c := LowerCast(g, v, g.code.fns[g.cur].ret);
    EmitLive(c.g, into, Ret(c.operand.value), sure, lo);
    LiveIsFine(LowerReturn(g, v), into, sure, lo);
    ReturnCloses(c.g, Ret(c.operand.value));
  }

  lemma ReturnCloses(g: Gen, i: Instr)
    requires i.IsTerminator()
    ensures !Open(Emit(g, i))
  {
  }

  /** The end of one arm: on to `target` if control gets there, then into the empty block `next`. */
  lemma JoinFine(g: Gen, into: seq<Entry>, target: nat, next: nat, lo: nat)
    requires Fine(g, into, lo) && Placed(g) && lo <= target < |into| && next < |into|
    requires Open(g) && Reached(g, into) ==> Promised(into[target], Here(g, into))
    requires InsertBlock(SetInsert(Attach(BranchIfOpen(g, target), next), next)) == []
    ensures var h := SetInsert(Attach(BranchIfOpen(g, target), next), next);
      && Fine(h, into, lo) && (Reached(h, into) <==> into[next].Some?)
      && (into[next].Some? ==> Here(h, into) == into[next].value)
  {
    hide Certified, Flow;
    if Open(g) {
      EmitCovered(g, into, Br(target), lo);
    }
    EnterFine(BranchIfOpen(g, target), into, next, lo);
  }

  lemma JoinLive(g: Gen, into: seq<Entry>, target: nat, next: nat, sure: set<string>, lo: nat)
    requires Fine(g, into, lo) && Placed(g) && lo <= target < |into| && next < |into|
    requires Open(g) && Reached(g, into) ==> Promised(into[target], Here(g, into))
    requires InsertBlock(SetInsert(Attach(BranchIfOpen(g, target), next), next)) == []
    requires into[next].Some? && Known(g.scopes, sure) <= into[next].value && Below(into[next].value, NextReg(g))
    ensures var h := SetInsert(Attach(BranchIfOpen(g, target), next), next);
      Live(h, into, sure, lo) && Here(h, into) == into[next].value
  {
    hide Certified, Flow, Known;
    JoinFine(g, into, target, next, lo);
  }

  /** Three new blocks; the first is entered, and the promises into the others are given. */
  lemma StartThree(g: Gen, into: seq<Entry>, parent: Option<nat>, second: Entry, third: Entry, i: Instr,
                   sure: set<string>, lo: nat)
    requires Live(g, into, sure, lo) && lo <= NextLabel(g) && Uses(i) <= Here(g, into) && (i.Br? || i.CondBr?)
    requires forall t :: t in i.Targets() ==>
      t == NextLabel(g) || (t == NextLabel(g) + 1 && Promised(second, Here(g, into)))
    ensures var l := NextLabel(g);
      var h := SetInsert(Emit(CreateBlock(CreateBlock(CreateBlock(g, Some(g.cur)), parent), None), i), l);
      var later := into + [Some(Here(g, into))] + [second] + [third];
      Live(h, later, sure, lo) && Here(h, later) == Here(g, into) && |into| == l
  {
    hide Certified, Flow, Known;
    var l, facts := NextLabel(g), Here(g, into);
    CreateLive(g, into, Some(g.cur), Some(facts), sure, lo);
    var g1 := CreateBlock(g, Some(g.cur));
    CreateLive(g1, into + [Some(facts)], parent, second, sure, lo);
    var g2 := CreateBlock(g1, parent);
    CreateLive(g2, into + [Some(facts)] + [second], None, third, sure, lo);
    var g3 := CreateBlock(g2, None);
    var later := into + [Some(facts)] + [second] + [third];
    EmitLive(g3, later, i, sure, lo);
    EnterLive(Emit(g3, i), later, l, sure, lo);
  }

  lemma LiveIsFine(g: Gen, into: seq<Entry>, sure: set<string>, lo: nat)
    requires Live(g, into, sure, lo)
    ensures Fine(g, into, lo)
  {
  }

  lemma InitOperand(g: Gen, into: seq<Entry>, e: Expr, sure: set<string>, lo: nat) returns (later: seq<Entry>)
    requires Ready(g, lo) && Live(g, into, sure, lo) && NamesIn(e) <= sure
    ensures var r := LowerExpr(g, e);
      r.g.ok ==> r.operand.Some? && Ready(r.g, lo) && r.g.scopes == g.scopes && NextReg(g) <= NextReg(r.g)
                 && r.g.cur == g.cur && r.g.code.fns == g.code.fns && ExprLive(g, into, r, later, sure, lo)
  {
    hide Live;
    ShapeExpr(g, e, lo);
    later := into;
    if LowerExpr(g, e).g.ok {
      later := InitExpr(g, into, e, sure, lo);
    }
  }

  lemma {:induction false} InitStmt(g: Gen, into: seq<Entry>, s: Stmt, bound: set<string>, sure: set<string>, lo: nat)
    returns (later: seq<Entry>)
    requires ToVisit(g, into, s, bound, sure, lo) && g.cur < |g.code.fns|
    ensures StmtLive(g, into, LowerStmt(g, s), later, Falls(s), SureAfter(s, bound, sure), lo)
    decreases s
  {
    hide Ready, Live, Here, Fine, Open;
    later := into;
    match s
    case Assign(x, t, rhs) =>
      later := InitOperand(g, into, rhs, sure, lo);
      var r := LowerExpr(g, rhs);
      AssignLive(r.g, later, x, t, rhs.Type(), r.operand.value, bound, sure, lo);
      LiveIsFine(LowerStmt(g, s), later, sure + {x}, lo);
    case Print(e) =>
      later := InitOperand(g, into, e, sure, lo);
      var r := LowerExpr(g, e);
      PrintLive(r.g, later, e.Type(), r.operand.value, sure, lo);
      LiveIsFine(LowerStmt(g, s), later, sure, lo);
    case Return(e) =>
      later := InitOperand(g, into, e, sure, lo);
      var r := LowerExpr(g, e);
      ReturnLive(r.g, later, r.operand.value, sure, lo);
    case CallStmt(_) => LiveIsFine(g, into, sure, lo);
    case Block(_) => later := InitBlock(g, into, s, bound, sure, lo);
    case If(_, _, _) => later := InitIf(g, into, s, bound, sure, lo);
    case While(_, _) => later := InitWhile(g, into, s, bound, sure, lo);
    case DoWhile(_, _) => later := InitDoWhile(g, into, s, bound, sure, lo);
  }

  lemma {:induction false} InitBlock(g: Gen, into: seq<Entry>, s: Stmt, bound: set<string>, sure: set<string>, lo: nat)
    returns (later: seq<Entry>)
    requires s.Block? && ToVisit(g, into, s, bound, sure, lo) && g.cur < |g.code.fns|
    ensures StmtLive(g, into, LowerStmt(g, s), later, Falls(s), sure, lo)
    decreases s, 0
  {
    hide Certified, Flow, Resolves, Known, Rebound, Tidy;
    var g0 := g.(scopes := g.scopes + [map[]]);
    PushedReady(g, bound, lo);
    KnownSame(g.scopes, sure, g0.scopes, sure);
    ReboundBlock(g, s, bound, lo);
    BlockScopes(g, s, bound);
    later := InitSeq(g0, into, s.stmts, bound, sure, lo);
    KnownSame(g.scopes, sure, LowerStmt(g, s).scopes, sure);
  }

  lemma BlockScopes(g: Gen, s: Stmt, bound: set<string>)
    requires Rebound(g, LowerStmt(g, s), bound, bound)
    ensures forall x :: x in bound ==> Lookup(LowerStmt(g, s).scopes, x) == Lookup(g.scopes, x)
  {
  }

  lemma {:induction false} InitSeq(g: Gen, into: seq<Entry>, ss: seq<Stmt>, bound: set<string>, sure: set<string>, lo: nat)
    returns (later: seq<Entry>)
    requires Ready(g, lo) && Live(g, into, sure, lo) && Resolves(g.scopes, bound) && sure <= bound
    requires AssuredAll(ss, bound, sure) && LowerSeq(g, ss).ok && g.cur < |g.code.fns|
    ensures StmtLive(g, into, LowerSeq(g, ss), later, FallsAll(ss), {}, lo)
    decreases ss
  {
    hide Live, Here, Fine, Resolves, Refines, Grows, Settled, Tidy, Rebound, Reached;
    later := into;
    if ss == [] {
      LiveIsFine(g, into, sure, lo);
      FewerNames(g, into, sure, lo);
    } else {
      var g1 := LowerStmt(g, ss[0]);
      SeqGoesOn(g, ss, lo);
      StillInside(g, g1, lo);
      ReboundStmt(g, ss[0], bound, lo);
      ReboundParts(g, g1, bound, BoundAfter(ss[0], bound));
      NamesGrow(ss[0], bound, sure);
      later := InitStmt(g, into, ss[0], bound, sure, lo);
      if Falls(ss[0]) {
        FallsOpen(g, ss[0], lo);
        later := InitSeq(g1, later, ss[1..], BoundAfter(ss[0], bound), SureAfter(ss[0], bound, sure), lo);
      } else if !Terminated(InsertBlock(g1)) {
        ShapeSeq(g1, ss[1..], lo);
        StmtGrows(g1, LowerSeq(g1, ss[1..]), lo);
        later := DeadVisit(g1, later, LowerSeq(g1, ss[1..]), lo);
      }
    }
  }

  lemma FewerNames(g: Gen, into: seq<Entry>, sure: set<string>, lo: nat)
    requires Live(g, into, sure, lo)
    ensures Live(g, into, {}, lo)
  {
    hide Certified;
  }

  lemma StillInside(g: Gen, h: Gen, lo: nat)
    requires StmtShape(g, h, lo) && g.cur < |g.code.fns|
    ensures h.cur < |h.code.fns|
  {
  }

  lemma StmtGrows(g: Gen, h: Gen, lo: nat)
    requires StmtShape(g, h, lo)
    ensures Grows(g, h) && Placed(h) && NextReg(g) <= NextReg(h)
  {
  }

  // ----- branches and loops -----

  lemma StillBelow(facts: set<Fact>, g: Gen, h: Gen)
    requires Below(facts, NextReg(g)) && NextReg(g) <= NextReg(h)
    ensures Below(facts, NextReg(h))
  {
  }

  /** What is promised behind a statement: what held before, and the cells of the sure names. */
  ghost function Behind(falls: bool, facts: set<Fact>, scopes: seq<Scope>, sure: set<string>): Entry {
    if falls then Some(facts + Known(scopes, sure)) else None
  }

  /** The end of an arm is good enough to go on where the sure names are among its own. */
  lemma ArmPromises(g: Gen, into: seq<Entry>, falls: bool, own: set<string>, facts: set<Fact>,
                    scopes: seq<Scope>, sure: set<string>, all: bool, lo: nat)
    requires falls ==> Live(g, into, own, lo) && facts <= Here(g, into) && all
    requires !falls && Open(g) ==> !Reached(g, into)
    requires falls ==> sure <= own && forall x :: x in sure ==> Lookup(scopes, x) == Lookup(g.scopes, x)
    ensures Open(g) && Reached(g, into) ==> Promised(Behind(all, facts, scopes, sure), Here(g, into))
    ensures falls ==> Below(Behind(all, facts, scopes, sure).value, NextReg(g))
  {
    hide Fine, Known;
    if falls {
      KnownSame(g.scopes, own, scopes, sure);
    }
  }

  lemma {:induction false} InitIf(g: Gen, into: seq<Entry>, s: Stmt, bound: set<string>, sure: set<string>, lo: nat)
    returns (later: seq<Entry>)
    requires s.If? && ToVisit(g, into, s, bound, sure, lo) && g.cur < |g.code.fns|
    ensures StmtLive(g, into, LowerStmt(g, s), later, Falls(s), SureAfter(s, bound, sure), lo)
    decreases s, 1
  {
    hide LowerStmt, LowerExpr, Resolves, Refines, Certified, Flow, Grows, Underway, Settled, Tidy, Below, Known, Terminated,
      Rebound, Behind, SureAfter, Falls, BoundAfter, Assured;
    IfSucceeds(g, s, lo);
    var st := StagesOfIf(g, s).value;
    ShapeOfElse(g, s, lo);
    var facts, later1 := InitThen(g, into, s, bound, sure, st, lo);
    later := InitElse(g, s, bound, sure, st, facts, later1, lo);
  }

  /** The names after the two arms. */
  lemma IfNames(s: Stmt, bound: set<string>, sure: set<string>)
    requires s.If? && sure <= bound
    ensures var b1, after := BoundAfter(s.thn, bound), SureAfter(s, bound, sure);
      && bound <= b1 && SureAfter(s.thn, bound, sure) <= b1
      && (Falls(s.thn) ==> Falls(s) && after <= SureAfter(s.thn, bound, sure))
      && (s.els.Some? && Falls(s.els.value) ==> Falls(s) && after <= SureAfter(s.els.value, b1, sure))
      && (s.els.None? ==> Falls(s) && after <= sure)
      && (Falls(s) ==> Falls(s.thn) || s.els.None? || Falls(s.els.value))
      && (s.els.Some? ==> SureAfter(s.els.value, b1, sure) <= BoundAfter(s.els.value, b1) == BoundAfter(s, bound))
      && (s.els.None? ==> b1 == BoundAfter(s, bound))
  {
    NamesGrow(s.thn, bound, sure);
    if s.els.Some? {
      NamesGrow(s.els.value, BoundAfter(s.thn, bound), sure);
    }
  }

  /** What each visit of an arm does to the names. */
  lemma IfRebound(g: Gen, s: Stmt, bound: set<string>, st: IfStages, lo: nat)
    requires s.If? && Ready(g, lo) && Resolves(g.scopes, bound) && LowerStmt(g, s).ok && StagesOfIf(g, s) == Some(st)
    ensures var b1 := BoundAfter(s.thn, bound);
      && Resolves(st.elseStart.scopes, b1) && st.thenEnd.scopes == st.elseStart.scopes
      && (forall x :: x in bound ==> Lookup(st.elseStart.scopes, x) == Lookup(g.scopes, x))
      && (forall x :: x in b1 ==> Lookup(st.elseEnd.scopes, x) == Lookup(st.elseStart.scopes, x))
  {
    hide LowerStmt, LowerExpr, Resolves, Grows, Underway, Settled, Tidy;
    ShapeOfThen(g, s, lo);
    ShapeOfElse(g, s, lo);
    ReboundStmt(st.thenStart, s.thn, bound, lo);
    if s.els.Some? {
      ReboundStmt(st.elseStart, s.els.value, BoundAfter(s.thn, bound), lo);
    }
  }

  /** The condition and the branch on it. */
  lemma InitOpen(g: Gen, into: seq<Entry>, s: Stmt, bound: set<string>, sure: set<string>, st: IfStages, lo: nat)
    returns (facts: set<Fact>, later: seq<Entry>)
    requires s.If? && ToVisit(g, into, s, bound, sure, lo) && StagesOfIf(g, s) == Some(st) && ThenShape(g, st, lo)
    ensures into <= later && Live(st.thenStart, later, sure, lo) && Here(st.thenStart, later) == facts
    ensures Here(g, into) <= facts && |later| == st.l + 3 && lo <= st.l
    ensures later[st.l + 1] == Some(facts)
    ensures later[st.l + 2] == Behind(Falls(s), facts, st.elseEnd.scopes, SureAfter(s, bound, sure))
    ensures st.thenStart.cur == g.cur && st.thenStart.code.fns == g.code.fns
  {
    hide LowerStmt, LowerExpr, Resolves, Certified, Flow, Grows, Settled, Tidy, Below, Known, Terminated, SureAfter, Falls;
    var into1 := InitOperand(g, into, s.cond, sure, lo);
    facts := Here(st.test.g, into1);
    var merge := Behind(Falls(s), facts, st.elseEnd.scopes, SureAfter(s, bound, sure));
    StartThree(st.test.g, into1, None, Some(facts), merge, CondBr(st.test.operand.value, st.l, st.l + 1), sure, lo);
    later := into1 + [Some(facts)] + [Some(facts)] + [merge];
    UnderwayGrows(st.test.g, st.thenStart, {st.l + 1, st.l + 2}, lo);
  }

  /** The condition and the first arm, up to the start of the second. */
  lemma {:induction false} InitThen(g: Gen, into: seq<Entry>, s: Stmt, bound: set<string>, sure: set<string>, st: IfStages, lo: nat)
    returns (facts: set<Fact>, later: seq<Entry>)
    requires s.If? && ToVisit(g, into, s, bound, sure, lo) && StagesOfIf(g, s) == Some(st) && ElseShape(st, lo)
    requires g.cur < |g.code.fns|
    ensures into <= later && Live(st.elseStart, later, sure, lo) && Here(st.elseStart, later) == facts
    ensures Here(g, into) <= facts && |later| > st.l + 2 && lo <= st.l && st.elseStart.cur < |st.elseStart.code.fns|
    ensures later[st.l + 2] == Behind(Falls(s), facts, st.elseEnd.scopes, SureAfter(s, bound, sure))
    ensures Falls(s.thn) ==> Falls(s) && Below(later[st.l + 2].value, NextReg(st.elseStart))
    decreases s, 0
  {
    hide LowerStmt, LowerExpr, Resolves, Refines, Certified, Flow, Grows, Underway, Settled, Tidy, Below, Known, Terminated,
      Rebound, SureAfter, Falls, BoundAfter;
    ShapeOfThen(g, s, lo);
    IfNames(s, bound, sure);
    IfRebound(g, s, bound, st, lo);
    var after, into2 := SureAfter(s, bound, sure), into;
    facts, into2 := InitOpen(g, into, s, bound, sure, st, lo);
    StmtGrows(st.thenStart, st.thenEnd, lo);
    ThenInside(g, s, st, bound, lo);
    later := InitStmt(st.thenStart, into2, s.thn, bound, sure, lo);
    ArmPromises(st.thenEnd, later, Falls(s.thn), SureAfter(s.thn, bound, sure), facts, st.elseEnd.scopes, after, Falls(s), lo);
    KnownSame(g.scopes, sure, st.thenEnd.scopes, sure);
    ThenJoins(st, later, facts, sure, lo);
  }

  lemma ThenInside(g: Gen, s: Stmt, st: IfStages, bound: set<string>, lo: nat)
    requires s.If? && StagesOfIf(g, s) == Some(st) && ThenShape(g, st, lo) && st.thenStart.cur < |st.thenStart.code.fns|
    requires Resolves(g.scopes, bound) && LowerStmt(g, s).ok
    ensures Ready(st.thenStart, lo) && Resolves(st.thenStart.scopes, bound) && st.thenEnd.ok
    ensures st.thenEnd == LowerStmt(st.thenStart, s.thn) && st.elseStart.cur < |st.elseStart.code.fns|
  {
    hide LowerStmt, LowerExpr, Settled, Tidy;
  }

  /** From the end of the first arm into the block of the second. */
  lemma ThenJoins(st: IfStages, into: seq<Entry>, facts: set<Fact>, sure: set<string>, lo: nat)
    requires st.elseStart == SetInsert(Attach(BranchIfOpen(st.thenEnd, st.l + 2), st.l + 1), st.l + 1)
    requires Fine(st.thenEnd, into, lo) && Placed(st.thenEnd) && lo <= st.l && |into| > st.l + 2
    requires Open(st.thenEnd) && Reached(st.thenEnd, into) ==> Promised(into[st.l + 2], Here(st.thenEnd, into))
    requires InsertBlock(st.elseStart) == [] && into[st.l + 1] == Some(facts)
    requires Known(st.thenEnd.scopes, sure) <= facts && Below(facts, NextReg(st.thenStart))
    requires NextReg(st.thenStart) <= NextReg(st.thenEnd)
    ensures Live(st.elseStart, into, sure, lo) && Here(st.elseStart, into) == facts
    ensures NextReg(st.thenEnd) <= NextReg(st.elseStart)
  {
    hide Certified, Flow, Known, Here, Terminated;
    StillBelow(facts, st.thenStart, st.thenEnd);
    JoinLive(st.thenEnd, into, st.l + 2, st.l + 1, sure, lo);
  }

  lemma UnderwayGrows(b: Gen, g: Gen, pending: set<nat>, lo: nat)
    requires Underway(b, g, pending, lo)
    ensures NextReg(b) <= NextReg(g) && g.cur == b.cur && g.code.fns == b.code.fns && lo <= NextLabel(b)
  {
  }

  /** The second arm and the join. */
  lemma {:induction false} InitElse(g: Gen, s: Stmt, bound: set<string>, sure: set<string>, st: IfStages,
                                    facts: set<Fact>, into: seq<Entry>, lo: nat) returns (later: seq<Entry>)
    requires s.If? && Ready(g, lo) && Resolves(g.scopes, bound) && sure <= bound && Assured(s, bound, sure)
    requires LowerStmt(g, s).ok && StagesOfIf(g, s) == Some(st) && ElseShape(st, lo) && st.elseStart.cur < |st.elseStart.code.fns|
    requires Live(st.elseStart, into, sure, lo) && Here(st.elseStart, into) == facts && |into| > st.l + 2 && lo <= st.l
    requires into[st.l + 2] == Behind(Falls(s), facts, st.elseEnd.scopes, SureAfter(s, bound, sure))
    requires Falls(s.thn) ==> Falls(s) && Below(into[st.l + 2].value, NextReg(st.elseStart))
    ensures Fine(st.end, later, lo) && into <= later
    ensures if Falls(s) then Live(st.end, later, SureAfter(s, bound, sure), lo) && facts <= Here(st.end, later)
            else !Reached(st.end, later)
    decreases s, 0
  {
    hide LowerStmt, LowerExpr, Resolves, Refines, Certified, Flow, Grows, Underway, Settled, Tidy, Below, Known, Terminated,
      Rebound, SureAfter, Falls, BoundAfter;
    IfNames(s, bound, sure);
    IfRebound(g, s, bound, st, lo);
    var b1, after := BoundAfter(s.thn, bound), SureAfter(s, bound, sure);
    later := into;
    StmtGrows(st.elseStart, st.elseEnd, lo);
    if s.els.Some? {
      later := InitStmt(st.elseStart, into, s.els.value, b1, sure, lo);
      ArmPromises(st.elseEnd, later, Falls(s.els.value), SureAfter(s.els.value, b1, sure), facts, st.elseEnd.scopes, after, Falls(s), lo);
    } else {
      ArmPromises(st.elseEnd, later, true, sure, facts, st.elseEnd.scopes, after, Falls(s), lo);
    }
    if Falls(s) {
      if Falls(s.thn) {
        StillBelow(later[st.l + 2].value, st.elseStart, st.elseEnd);
      }
      JoinLive(st.elseEnd, later, st.l + 2, st.l + 2, after, lo);
    } else {
      JoinFine(st.elseEnd, later, st.l + 2, st.l + 2, lo);
    }
  }

  /** Up to the start of the body. */
  lemma InitLoop(g: Gen, into: seq<Entry>, s: Stmt, bound: set<string>, sure: set<string>, st: WhileStages, lo: nat)
    returns (later: seq<Entry>)
    requires s.While? && ToVisit(g, into, s, bound, sure, lo) && StagesOfWhile(g, s) == Some(st) && LoopShape(g, st, lo)
    ensures into <= later && Live(st.bodyStart, later, sure, lo) && Here(st.bodyStart, later) == Here(g, into)
    ensures |later| > st.l + 2 && lo <= st.l
    ensures later[st.l] == later[st.l + 2] == Some(Here(g, into))
    ensures st.bodyStart.cur == g.cur && st.bodyStart.code.fns == g.code.fns
  {
    hide LowerStmt, LowerExpr, Resolves, Certified, Flow, Grows, Settled, Tidy, Below, Known, Terminated;
    var l, facts := st.l, Here(g, into);
    UnderwayGrows(g, st.bodyStart, {st.l + 2}, lo);
    StartThree(g, into, Some(g.cur), Some(facts), Some(facts), Br(l), sure, lo);
    var into1 := into + [Some(facts)] + [Some(facts)] + [Some(facts)];
    later := InitOperand(st.loopStart, into1, s.cond, sure, lo);
    var i := CondBr(st.test.operand.value, l + 1, l + 2);
    EmitLive(st.test.g, later, i, sure, lo);
    UnderwayGrows(g, st.loopStart, {st.l + 1, st.l + 2}, lo);
    StillBelow(facts, g, st.test.g);
    EnterLive(Emit(st.test.g, i), later, l + 1, sure, lo);
  }

  lemma {:induction false} InitWhile(g: Gen, into: seq<Entry>, s: Stmt, bound: set<string>, sure: set<string>, lo: nat)
    returns (later: seq<Entry>)
    requires s.While? && ToVisit(g, into, s, bound, sure, lo) && g.cur < |g.code.fns|
    ensures StmtLive(g, into, LowerStmt(g, s), later, true, sure, lo)
    decreases s, 0
  {
    hide LowerStmt, LowerExpr, Resolves, Certified, Flow, Grows, Underway, Settled, Tidy, Below, Known, Terminated;
    WhileSucceeds(g, s, lo);
    var st := StagesOfWhile(g, s).value;
    ShapeOfLoop(g, s, lo);
    ShapeOfLoopEnd(g, s, lo);
    var into1 := InitLoop(g, into, s, bound, sure, st, lo);
    ReboundStmt(st.bodyStart, s.body, bound, lo);
    StmtGrows(st.bodyStart, st.bodyEnd, lo);
    later := InitStmt(st.bodyStart, into1, s.body, bound, sure, lo);
    KnownSame(g.scopes, sure, st.bodyEnd.scopes, sure);
    StillBelow(Here(g, into), st.bodyStart, st.bodyEnd);
    JoinLive(st.bodyEnd, later, st.l, st.l + 2, sure, lo);
    LiveIsFine(st.end, later, sure, lo);
  }

  lemma {:induction false} InitDoWhile(g: Gen, into: seq<Entry>, s: Stmt, bound: set<string>, sure: set<string>, lo: nat)
    returns (later: seq<Entry>)
    requires s.DoWhile? && ToVisit(g, into, s, bound, sure, lo) && g.cur < |g.code.fns|
    ensures StmtLive(g, into, LowerStmt(g, s), later, Falls(s), SureAfter(s, bound, sure), lo)
    decreases s, 0
  {
    hide Resolves, Refines, Certified, Flow, Grows, Settled, Tidy, Ready, LowerExpr, StartDoWhile, Below, Known;
    var l, g0, facts := NextLabel(g), StartDoWhile(g), Here(g, into);
    var g1, sure1 := LowerStmt(g0, s.body), SureAfter(s.body, bound, sure);
    var after := Behind(Falls(s.body), facts, g1.scopes, sure1);
    DoBody(g, s, lo);
    StartDoLive(g, into, after, sure, lo);
    later := InitStmt(g0, into + [Some(facts)] + [after], s.body, bound, sure, lo);
    ArmPromises(g1, later, Falls(s.body), sure1, facts, g1.scopes, sure1, Falls(s.body), lo);
    if Falls(s.body) {
      FallsOpen(g0, s.body, lo);
      ReadyIsOpen(g1, lo);
      later := InitTest(g1, later, s.cond, l, sure1, lo);
      LiveIsFine(LowerStmt(g, s), later, sure1, lo);
    } else if Terminated(InsertBlock(g1)) {
      EnterFine(g1, later, l + 1, lo);
    } else {
      later := DeadTest(g1, later, s.cond, l, lo);
    }
  }

  lemma ReadyIsOpen(g: Gen, lo: nat)
    requires Ready(g, lo)
    ensures Open(g) && !Terminated(InsertBlock(g))
  {
  }

  lemma StartDoLive(g: Gen, into: seq<Entry>, after: Entry, sure: set<string>, lo: nat)
    requires Live(g, into, sure, lo) && lo <= NextLabel(g)
    ensures var h, later := StartDoWhile(g), into + [Some(Here(g, into))] + [after];
      Live(h, later, sure, lo) && Here(h, later) == Here(g, into) && |into| == NextLabel(g)
  {
    hide Certified, Here, Known;
    StartTwo(g, into, after, Br(NextLabel(g)), sure, lo);
  }

  /** The body's visit leaves the block after the loop as it was. */
  lemma DoBody(g: Gen, s: Stmt, lo: nat)
    requires s.DoWhile? && Ready(g, lo) && LowerStmt(g, s).ok
    ensures var g0 := StartDoWhile(g);
      var g1 := LowerStmt(g0, s.body);
      && Ready(g0, lo) && g0.scopes == g.scopes && g0.cur == g.cur && g0.code.fns == g.code.fns && g1.ok
      && lo <= NextLabel(g) && Placed(g1)
      && NextLabel(g) + 1 < |g1.code.blocks| && g1.code.blocks[NextLabel(g) + 1].code == []
      && if Terminated(InsertBlock(g1)) then
           LowerStmt(g, s) == SetInsert(Attach(g1, NextLabel(g) + 1), NextLabel(g) + 1)
         else
           && Ready(g1, lo) && NextLabel(g) + 1 != g1.insert
           && LowerExpr(g1, s.cond).g.ok && LowerExpr(g1, s.cond).operand.Some?
  {
    hide Settled, Tidy, StartDoWhile, LowerExpr, Extends;
    var l, g0 := NextLabel(g), StartDoWhile(g);
    ShapeStartDoWhile(g, lo);
    ShapeStmt(g0, s.body, lo);
    var g1 := LowerStmt(g0, s.body);
    ShapeNested(g, g0, g1, {l + 1}, lo);
    if !Terminated(InsertBlock(g1)) {
      ShapeExpr(g1, s.cond, lo);
    }
  }

  lemma InitTest(g: Gen, into: seq<Entry>, c: Expr, l: nat, sure: set<string>, lo: nat) returns (later: seq<Entry>)
    requires Ready(g, lo) && Live(g, into, sure, lo) && NamesIn(c) <= sure
    requires LowerExpr(g, c).g.ok && LowerExpr(g, c).operand.Some? && lo <= l && l + 1 < |into|
    requires Promised(into[l], Here(g, into)) && Promised(into[l + 1], Here(g, into))
    requires Known(g.scopes, sure) <= into[l + 1].value && Below(into[l + 1].value, NextReg(g))
    requires g.code.blocks[l + 1].code == [] && l + 1 != g.insert
    ensures var r := LowerExpr(g, c);
      var h := SetInsert(Attach(Emit(r.g, CondBr(r.operand.value, l, l + 1)), l + 1), l + 1);
      && Live(h, later, sure, lo) && into <= later && Here(h, later) == into[l + 1].value
  {
    hide Certified, Flow, Settled, Tidy, Known, Below, LowerExpr;
    later := InitOperand(g, into, c, sure, lo);
    var r := LowerExpr(g, c);
    ShapeExpr(g, c, lo);
    StillBelow(into[l + 1].value, g, r.g);
    EmitLive(r.g, later, CondBr(r.operand.value, l, l + 1), sure, lo);
    EnterLive(Emit(r.g, CondBr(r.operand.value, l, l + 1)), later, l + 1, sure, lo);
  }

  /** The test of a loop whose body never gets to it. */
  lemma DeadTest(g: Gen, into: seq<Entry>, c: Expr, l: nat, lo: nat) returns (later: seq<Entry>)
    requires Ready(g, lo) && Fine(g, into, lo) && !Reached(g, into)
    requires LowerExpr(g, c).g.ok && LowerExpr(g, c).operand.Some? && l + 1 < |into| && into[l + 1].None?
    requires g.code.blocks[l + 1].code == [] && l + 1 != g.insert
    ensures var r := LowerExpr(g, c);
      var h := SetInsert(Attach(Emit(r.g, CondBr(r.operand.value, l, l + 1)), l + 1), l + 1);
      Fine(h, later, lo) && into <= later && !Reached(h, later)
  {
    hide Certified, Flow, Settled, Tidy, LowerExpr;
    var r := LowerExpr(g, c);
    ShapeExpr(g, c, lo);
    later := DeadVisit(g, into, r.g, lo);
    EmitCovered(r.g, later, CondBr(r.operand.value, l, l + 1), lo);
    EnterFine(Emit(r.g, CondBr(r.operand.value, l, l + 1)), later, l + 1, lo);
  }

  // ----- functions -----

  /** Nothing is promised into the first block, which every path starts in. */
  function FirstEntry(n: nat): (into: seq<Entry>)
    ensures |into| == n + 1 && into[n] == Some({})
  {
    seq(n, l => None) + [Some({})]
  }

  lemma StartFunctionLive(g: Gen, d: FunctionDef)
    ensures Live(StartFunction(g, d), FirstEntry(NextLabel(g)), {}, NextLabel(g))
    ensures Resolves(StartFunction(g, d).scopes, {})
  {
  }

  lemma ParamLive(g: Gen, into: seq<Entry>, p: Param, i: nat, sure: set<string>, lo: nat)
    requires Live(g, into, sure, lo) && Resolves(g.scopes, sure)
    ensures Live(LowerParam(g, p, i), into, sure + {p.name}, lo) && Resolves(LowerParam(g, p, i).scopes, sure + {p.name})
  {
    hide Live, Here, EmitDef;
    var slot, t := NextReg(g), ToLType(p.ty);
    DefLive(g, into, PtrTo(t), Alloca(slot, t), sure, lo);
    var g1 := EmitDef(g, PtrTo(t), Alloca(slot, t));
    StoreLive(g1, into, Arg(i), slot, sure, lo);
    SlotScopes(g, t, slot, i);
    DeclaredLive(Emit(g1, Store(Arg(i), slot)), into, p.name, slot, sure, lo);
    LookupDeclared(g.scopes, p.name, slot);
  }

  lemma SlotScopes(g: Gen, t: LType, slot: nat, i: nat)
    ensures Emit(EmitDef(g, PtrTo(t), Alloca(slot, t)), Store(Arg(i), slot)).scopes == g.scopes
  {
  }

  lemma {:induction false} ParamsLive(g: Gen, into: seq<Entry>, ps: seq<Param>, lo: nat)
    requires Live(g, into, {}, lo) && Resolves(g.scopes, {})
    ensures Live(LowerParams(g, ps), into, ParamNames(ps), lo) && Resolves(LowerParams(g, ps).scopes, ParamNames(ps))
    decreases ps
  {
    hide Live, Resolves, LowerParam;
    if ps == [] {
      assert ParamNames(ps) == {};
    } else {
      var n := |ps| - 1;
      ParamsLive(g, into, ps[..n], lo);
      ParamLive(LowerParams(g, ps[..n]), into, ps[n], n, ParamNames(ps[..n]), lo);
      assert ParamNames(ps) == ParamNames(ps[..n]) + {ps[n].name};
    }
  }

  /** A certificate for the body of a function.  If control cannot get past the body, no path leads
      to the end of it. */
  lemma FunctionCertified(g: Gen, d: FunctionDef) returns (into: seq<Entry>)
    requires LowerFunction(g, d).ok && AssuredFunction(d)
    ensures Covered(LowerFunction(g, d).code, BodyEnd(g, d).code.blocks, into, NextLabel(g), NextLabel(g))
    ensures !Falls(d.body) && Open(BodyEnd(g, d)) ==> BodyEnd(g, d).insert < |into| && into[BodyEnd(g, d).insert].None?
  {
    hide Certified, Flow, Here, Known, Resolves, LowerParams, LowerStmt, Assured, Settled, Tidy, Below, Falls, SureAfter;
    var lo, g0, g1 := NextLabel(g), StartFunction(g, d), BodyStart(g, d);
    var names := ParamNames(d.params);
    into := FirstEntry(lo);
    ShapeBody(g, d);
    ShapeStartFunction(g, d);
    StartFunctionLive(g, d);
    ParamsLive(g0, into, d.params, lo);
    into := InitStmt(g1, into, d.body, names, names, lo);
  }

  /** The same in the whole program. */
  lemma ProgramCovered(p: Program, i: nat) returns (into: seq<Entry>)
    requires LowerProgram(p).ok && i < |p| && AssuredFunction(p[i]) && i < |LowerProgram(p).code.fns|
    ensures var g, c := LowerProgram(p[..i]), LowerProgram(p).code;
      && Covered(c, BodyEnd(g, p[i]).code.blocks, into, NextLabel(g), c.fns[i].entry) && c.fns[i].entry == NextLabel(g)
      && (!Falls(p[i].body) && Open(BodyEnd(g, p[i])) ==>
            BodyEnd(g, p[i]).insert < |into| && into[BodyEnd(g, p[i]).insert].None?)
  {
    hide LowerProgram, LowerFunction, AssuredFunction, Certified, Falls, BodyEnd;
    Correctness.PrefixStep(p, i);
    Correctness.PrefixExtends(p, i + 1);
    FunctionEntry(p, i);
    into := FunctionCertified(LowerProgram(p[..i]), p[i]);
  }

  lemma FunctionEntry(p: Program, i: nat)
    requires i < |p| && i < |LowerProgram(p).code.fns|
    ensures LowerProgram(p).code.fns[i].entry == NextLabel(LowerProgram(p[..i]))
    ensures NextLabel(LowerProgram(p[..i])) < NextLabel(LowerProgram(p[..i + 1]))
  {
    hide LowerProgram, LowerStmt, LowerParams;
    var g := LowerProgram(p[..i]);
    Correctness.PrefixKnows(p, i);
    Correctness.PrefixStep(p, i);
    Correctness.PrefixExtends(p, i + 1);
    FunctionAppends(g, p[i]);
    ShapeBody(g, p[i]);
    ShapeStartFunction(g, p[i]);
  }

  /** A path through function `i` from its entry. */
  ghost predicate PathOf(p: Program, i: nat, path: seq<nat>)
    requires i < |LowerProgram(p).code.fns|
  {
    Path(LowerProgram(p).code, path) && (path != [] ==> path[0] == LowerProgram(p).code.fns[i].entry)
  }

  /** On every path from the function's entry through the flow graph of the whole program every use
      comes after what it needs. */
  lemma EveryPathIsInitialised(p: Program, i: nat, path: seq<nat>)
    requires LowerProgram(p).ok && i < |p| && AssuredFunction(p[i]) && i < |LowerProgram(p).code.fns|
    requires PathOf(p, i, path)
    ensures UsesAfterDefs(Trace(LowerProgram(p).code, path))
  {
    hide LowerProgram, LowerFunction, Path, UsesAfterDefs, AssuredFunction, Covered, BodyEnd;
    var into := ProgramCovered(p, i);
    PathUses(LowerProgram(p).code, BodyEnd(LowerProgram(p[..i]), p[i]).code.blocks, into, NextLabel(LowerProgram(p[..i])), path);
  }
}
