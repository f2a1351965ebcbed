/** The emitted flow graph of a whole program. */
module FlowGraph {
  import opened Wrappers
  import opened Ast
  import opened Ir
  import opened Lowering
  import opened Shape
  import opened Visits

  /** One terminator, at the end, and every branch stays in the block's own function. */
  ghost predicate WellFormedBlock(c: Code, l: nat)
    requires l < |c.blocks|
  {
    var b := c.blocks[l];
    && b.parent.Some? && b.parent.value < |c.fns|
    && Terminated(b.code)
    && (forall k :: 0 <= k < |b.code| - 1 ==> !b.code[k].IsTerminator())
    && (forall k :: 0 <= k < |b.code| ==> StaysInside(c, b.code[k], b.parent))
  }

  /** The instruction branches to blocks of this function only. */
  ghost predicate StaysInside(c: Code, i: Instr, f: Option<nat>) {
    forall t :: t in i.Targets() ==> t < |c.blocks| && c.blocks[t].parent == f
  }

  ghost predicate WellFormed(c: Code) {
    && (forall l :: 0 <= l < |c.blocks| ==> WellFormedBlock(c, l))
    && (forall f :: 0 <= f < |c.fns| ==>
          c.fns[f].entry < |c.blocks| && c.blocks[c.fns[f].entry].parent == Some(f))
  }

  /** `h` adds functions and blocks to `g`; every block of `g` is as it was. */
  ghost predicate Appends(g: Gen, h: Gen) {
    && g.code.blocks <= h.code.blocks && g.code.fns <= h.code.fns && g.code.regs <= h.code.regs
    && (h.ok ==> g.ok)
  }

  lemma AppendsExtends(g: Gen, h: Gen)
    requires Appends(g, h)
    ensures Extends(g.code, h.code)
  {
  }

  lemma ShapeStartFunction(g: Gen, d: FunctionDef)
    ensures var h := StartFunction(g, d);
      && Ready(h, NextLabel(g)) && Appends(g, h) && h.insert == NextLabel(g)
      && h.cur == |g.code.fns| && NextLabel(h) == NextLabel(g) + 1 && h.ok == g.ok
      && h.code.fns == g.code.fns + [Fn(d.name, ToLTypes(d.params), ToLType(d.ty), NextLabel(g))]
  {
  }

  lemma {:induction false} ShapeParams(g: Gen, ps: seq<Param>, lo: nat)
    requires Ready(g, lo)
    ensures StmtShape(g, LowerParams(g, ps), lo) && Ready(LowerParams(g, ps), lo) && LowerParams(g, ps).ok == g.ok
    decreases ps
  {
    if ps == [] {
      UnderwayStart(g, {}, lo);
    } else {
      var i := |ps| - 1;
      var t := ToLType(ps[i].ty);
      ShapeParams(g, ps[..i], lo);
      var g1 := LowerParams(g, ps[..i]);
      var slot := NextReg(g1);
      ShapeParamCell(g1, t, i, lo);
      var g2 := Emit(EmitDef(g1, PtrTo(t), Alloca(slot, t)), Store(Arg(i), slot));
      StmtThen(g, g1, g2, lo);
      ShapeRescoped(g, g2, Declare(g2.scopes, ps[i].name, slot), lo);
    }
  }

  lemma ShapeParamCell(g: Gen, t: LType, i: nat, lo: nat)
    requires Ready(g, lo)
    ensures var g2 := Emit(EmitDef(g, PtrTo(t), Alloca(NextReg(g), t)), Store(Arg(i), NextReg(g)));
      StmtShape(g, g2, lo) && Ready(g2, lo) && g2.ok == g.ok
  {
    UnderwayStart(g, {}, lo);
    UnderwayDef(g, g, PtrTo(t), Alloca(NextReg(g), t), {}, lo);
    UnderwayEmit(g, EmitDef(g, PtrTo(t), Alloca(NextReg(g), t)), Store(Arg(i), NextReg(g)), {}, lo);
  }

  /** The state in which the body is visited, and the one after it. */
  function BodyStart(g: Gen, d: FunctionDef): Gen { LowerParams(StartFunction(g, d), d.params) }
  function BodyEnd(g: Gen, d: FunctionDef): Gen { LowerStmt(BodyStart(g, d), d.body) }

  lemma ShapeBody(g: Gen, d: FunctionDef)
    ensures var lo := NextLabel(g);
      && Ready(BodyStart(g, d), lo)
      && StmtShape(StartFunction(g, d), BodyStart(g, d), lo)
      && StmtShape(BodyStart(g, d), BodyEnd(g, d), lo)
      && StmtShape(StartFunction(g, d), BodyEnd(g, d), lo)
      && StmtShape(StartFunction(g, d), LowerFunction(g, d), lo)
      && (LowerFunction(g, d).ok ==> Closed(LowerFunction(g, d), LowerFunction(g, d).insert))
  {
    var lo := NextLabel(g);
    var g0, g1, g2 := StartFunction(g, d), BodyStart(g, d), BodyEnd(g, d);
    ShapeStartFunction(g, d);
    ShapeParams(g0, d.params, lo);
    ShapeStmt(g1, d.body, lo);
    StmtThen(g0, g1, g2, lo);
    if g2.ok && !Terminated(InsertBlock(g2)) {
      UnderwayEmit(g0, g2, Unreachable, {}, lo);
    }
  }

  /** Visiting a function, even one that fails, writes to no block that existed before. */
  lemma FunctionAppends(g: Gen, d: FunctionDef)
    ensures Appends(g, LowerFunction(g, d))
    ensures LowerFunction(g, d).code.fns == StartFunction(g, d).code.fns
    ensures LowerFunction(g, d).funcs == g.funcs[d.name := |g.code.fns|]
  {
    ShapeStartFunction(g, d);
    ShapeBody(g, d);
    var g0, h := StartFunction(g, d), LowerFunction(g, d);
    forall l | 0 <= l < NextLabel(g) ensures h.code.blocks[l] == g.code.blocks[l] {
      assert g0.code.blocks[l] == g.code.blocks[l];
    }
  }

  lemma TidyBlock(h: Gen, lo: nat, l: nat)
    requires Tidy(h, lo) && lo <= l < |h.code.blocks| && h.cur < |h.code.fns|
    requires forall k: nat :: lo <= k < |h.code.blocks| ==> Closed(h, k)
    ensures WellFormedBlock(h.code, l) && h.code.blocks[l].parent == Some(h.cur)
  {
    var b := h.code.blocks[l];
    assert Closed(h, l);
    forall k | 0 <= k < |b.code| - 1 ensures !b.code[k].IsTerminator() {
      assert TidyInstr(h, lo, l, k);
    }
    forall k | 0 <= k < |b.code| ensures StaysInside(h.code, b.code[k], b.parent) {
      assert TidyInstr(h, lo, l, k);
      forall t | t in b.code[k].Targets() ensures t < |h.code.blocks| && h.code.blocks[t].parent == b.parent {
        assert Closed(h, t);
      }
    }
  }

  lemma FunctionWellFormed(g: Gen, d: FunctionDef)
    requires LowerFunction(g, d).ok
    ensures var c := LowerFunction(g, d).code;
      forall l :: NextLabel(g) <= l < |c.blocks| ==>
        WellFormedBlock(c, l) && c.blocks[l].parent == Some(|g.code.fns|)
  {
    ShapeStartFunction(g, d);
    ShapeBody(g, d);
    var lo, g0, h := NextLabel(g), StartFunction(g, d), LowerFunction(g, d);
    forall l: nat | lo <= l < |h.code.blocks| ensures Closed(h, l) {
      assert Written(g0, h, l);
    }
    forall l: nat | lo <= l < |h.code.blocks|
      ensures WellFormedBlock(h.code, l) && h.code.blocks[l].parent == Some(|g.code.fns|)
    {
      TidyBlock(h, lo, l);
    }
  }

  lemma OldBlock(c: Code, d: Code, l: nat)
    requires l < |c.blocks| && WellFormedBlock(c, l) && c.blocks <= d.blocks && c.fns <= d.fns
    ensures WellFormedBlock(d, l)
  {
    var b := c.blocks[l];
    assert d.blocks[l] == b;
    forall k | 0 <= k < |b.code| ensures StaysInside(d, b.code[k], b.parent) {
      assert StaysInside(c, b.code[k], b.parent);
    }
  }

  /** After the program has been visited without an error: each block ends in its only terminator,
      is attached, and branches only to attached blocks of its own function. */
  lemma {:induction false} ProgramWellFormed(p: Program)
    requires LowerProgram(p).ok
    ensures WellFormed(LowerProgram(p).code) && |LowerProgram(p).code.fns| == |p|
    decreases p
  {
    if p != [] {
      var g, d := LowerProgram(p[..|p| - 1]), p[|p| - 1];
      FunctionAppends(g, d);
      ProgramWellFormed(p[..|p| - 1]);
      WellFormedAfter(g, d);
    }
  }

  lemma WellFormedAfter(g: Gen, d: FunctionDef)
    requires WellFormed(g.code) && LowerFunction(g, d).ok
    ensures WellFormed(LowerFunction(g, d).code)
    ensures |LowerFunction(g, d).code.fns| == |g.code.fns| + 1
  {
    hide LowerFunction, StartFunction;
    var h := LowerFunction(g, d);
    FunctionAppends(g, d);
    FunctionWellFormed(g, d);
    ShapeStartFunction(g, d);
    ShapeBody(g, d);
    forall l: nat | l < |h.code.blocks| ensures WellFormedBlock(h.code, l) {
      if l < NextLabel(g) {
        OldBlock(g.code, h.code, l);
      }
    }
  }
}
