/** Calling convention: the arguments' operands, the frame a call pushes, the parameters' cells. */
module Calls {
  import opened Wrappers
  import opened Values
  import opened Ast
  import opened Source
  import opened Ir
  import opened Lowering
  import opened Shape
  import opened Visits
  import opened FlowGraph
  import opened Matching
  import opened ShortCircuit
  import opened Scoping
  import opened Declarations
  import opened Statements

  // ----- linking: the code of every function is there -----

  /** The functions the generator knows are the first ones of the program. */
  ghost predicate KnowsFunctions(g: Gen, p: Program) {
    && |g.code.fns| <= |p|
    && (forall i :: 0 <= i < |g.code.fns| ==>
          g.code.fns[i].params == ToLTypes(p[i].params) && g.code.fns[i].ret == ToLType(p[i].ty))
    && (forall f :: f in g.funcs ==> g.funcs[f] < |g.code.fns| && p[g.funcs[f]].name == f)
  }

  ghost predicate LinkedFunction(p: Program, c: Code, i: nat)
    requires i < |p|
  {
    var g := LowerProgram(p[..i]);
    && LowerFunction(g, p[i]).ok && Extends(LowerFunction(g, p[i]).code, c)
    && |g.code.fns| == i && KnowsFunctions(StartFunction(g, p[i]), p)
    && AssuredFunction(p[i]) && NoCallStmts(p[i].body)
  }

  ghost predicate Linked(w: World, c: Code) {
    && DistinctNames(w.p) && |c.fns| == |w.p|
    && forall i :: 0 <= i < |w.p| ==> LinkedFunction(w.p, c, i)
  }

  /** Everything about the surroundings of a visit inside a function that returns `ret`. */
  ghost predicate Inside(w: World, c: Code, g: Gen, ret: TType) {
    && Linked(w, c) && KnowsFunctions(g, w.p) && g.code.fns <= c.fns
    && g.cur < |g.code.fns| && g.code.fns[g.cur].ret == ToLType(ret) && g.scopes != []
  }

  lemma InsideLater(w: World, c: Code, g: Gen, h: Gen, ret: TType)
    requires Inside(w, c, g, ret) && Later(g, h) && (h.scopes == g.scopes || h.scopes != [])
    ensures Inside(w, c, h, ret)
  {
  }

  lemma FoundFunction(p: Program, f: string, i: nat)
    requires DistinctNames(p) && i < |p| && p[i].name == f
    ensures FindFunction(p, f) == Some(i)
  {
    assert FindFunction(p, f).Some?;
  }

  /** A callee the generator resolves is the one the interpreter finds. */
  lemma ResolvedCall(w: World, c: Code, g: Gen, ret: TType, f: string)
    requires Inside(w, c, g, ret) && f in g.funcs
    ensures var i := g.funcs[f];
      && i < |w.p| && i < |g.code.fns| && FindFunction(w.p, f) == Some(i)
      && g.code.fns[i].params == ToLTypes(w.p[i].params)
      && g.code.fns[i].ret == ToLType(w.p[i].ty)
      && |g.code.fns[i].params| == |w.p[i].params|
  {
    FoundFunction(w.p, f, g.funcs[f]);
  }

  // ----- arguments -----

  ghost predicate HaveValues(g: Gen, fr: Frame, ops: seq<Operand>, vs: seq<Val>) {
    |ops| == |vs| && forall i :: 0 <= i < |ops| ==> HasValue(g, fr, ops[i], vs[i])
  }

  lemma {:induction false} FetchedAllValues(g: Gen, fr: Frame, ops: seq<Operand>, vs: seq<Val>)
    requires HaveValues(g, fr, ops, vs)
    ensures FetchAll(fr, ops) == GotAll(vs)
    decreases ops
  {
    if ops != [] {
      assert HasValue(g, fr, ops[0], vs[0]);
      FetchedAllValues(g, fr, ops[1..], vs[1..]);
    }
  }

  ghost predicate ArgsDone(g: Gen, r: LoweredArgs, s: State, t: State, vs: seq<Val>) {
    && At(r.g, t) && Keeps(g, s, t) && KeepsCells(s, t) && Along(g, r.g, s, t)
    && HaveValues(r.g, t.cur, r.operands, vs)
  }

  lemma ArgsCons(g: Gen, r1: Lowered, r2: LoweredArgs, s: State, s1: State, t: State, v: Val, vs: seq<Val>)
    requires ExprDone(g, r1, s, s1, v) && ArgsDone(r1.g, r2, s1, t, vs)
    requires g.code.regs <= r1.g.code.regs <= r2.g.code.regs
    ensures ArgsDone(g, LoweredArgs(r2.g, [r1.operand.value] + r2.operands), s, t, [v] + vs)
  {
    KeepsTransitive(g, r1.g, s, s1, t);
    AlongThen(g, r1.g, r2.g, s, s1, t);
    ValueKept(r1.g, r2.g, r1.operand.value, v, s1, t);
    var ops, ws := [r1.operand.value] + r2.operands, [v] + vs;
    forall i | 0 <= i < |ops| ensures HasValue(r2.g, t.cur, ops[i], ws[i]) {
      if i > 0 {
        assert HasValue(r2.g, t.cur, r2.operands[i - 1], vs[i - 1]);
      }
    }
  }

  // ----- the frame of a call -----

  /** The machine has just entered function `i` with arguments `vs`. */
  ghost predicate Entered(c: Code, i: nat, vs: seq<Val>, s: State)
    requires i < |c.fns|
  {
    && s.status.Running? && s.cur.lbl == c.fns[i].entry && s.cur.pc == 0
    && s.cur.regs == map[] && s.cur.args == vs && s.cur.cells == []
  }

  lemma StepCall(c: Code, ops: FloatOps, g: Gen, t: LType, i: nat, args: seq<Operand>, vs: seq<Val>, s: State)
    requires At(g, s) && Open(g) && HaveValues(g, s.cur, args, vs) && i < |c.fns|
    requires Extends(EmitDef(g, t, CallFn(NextReg(g), i, args)).code, c)
    ensures var u := Run(c, ops, s, 1);
      && Entered(c, i, vs, u) && u.out == s.out && u.cur.dst == NextReg(g)
      && u.callers == [s.cur.(pc := s.cur.pc + 1)] + s.callers
  {
    FetchedAllValues(g, s.cur, args, vs);
    FetchInstr(c, ops, g.(code := g.code.(regs := g.code.regs + [t])), CallFn(NextReg(g), i, args), s);
  }

  /** Back in the caller with the result in the call's register. */
  lemma ReturnToCaller(c: Code, ops: FloatOps, g: Gen, t: LType, i: Instr, v: Val, s: State, u: State)
    requires At(g, s) && Open(g) && TypeOfVal(v) == t
    requires AtReturn(c, ops, u, v)
    requires u.callers == [s.cur.(pc := s.cur.pc + 1)] + s.callers && u.cur.dst == NextReg(g)
    ensures var w := Run(c, ops, u, 1);
      ExprDone(g, Lowered(EmitDef(g, t, i), Some(Reg(NextReg(g)))), s, w, v) && w.out == u.out
  {
    assert Run(c, ops, u, 1) == Run(c, ops, Step(c, ops, u), 0);
  }

  // ----- parameters -----

  lemma {:induction false} BindNames(ps: seq<Param>, vs: seq<Val>)
    requires |ps| == |vs|
    ensures Bind(ps, vs).Keys == ParamNames(ps)
    decreases ps
  {
    if ps != [] {
      var i := |ps| - 1;
      BindNames(ps[..i], vs[..i]);
      assert ParamNames(ps) == ParamNames(ps[..i]) + {ps[i].name} by {
        forall x | x in ParamNames(ps) ensures x in ParamNames(ps[..i]) + {ps[i].name} {
          var k :| 0 <= k < |ps| && ps[k].name == x;
          if k < i { assert ps[..i][k].name == x; }
        }
        forall x | x in ParamNames(ps[..i]) ensures x in ParamNames(ps) {
          var k :| 0 <= k < i && ps[..i][k].name == x;
          assert ps[k].name == x;
        }
      }
    }
  }

  lemma SimNoParams(c: Code, ops: FloatOps, g: Gen, s: State)
    requires At(g, s) && g.scopes != [] && Match(g, map[], s.cur)
    ensures StmtDone(g, LowerParams(g, []), s, Run(c, ops, s, 0), Bind([], [])) && Run(c, ops, s, 0) == s
    ensures LowerParams(g, []) == g
  {
  }

  lemma {:induction false} SimParams(c: Code, ops: FloatOps, g: Gen, ps: seq<Param>, vs: seq<Val>, s: State, lo: nat)
    returns (n: nat)
    requires Ready(g, lo) && At(g, s) && g.scopes != [] && Match(g, map[], s.cur)
    requires |ps| == |vs| && vs <= s.cur.args
    requires Extends(LowerParams(g, ps).code, c)
    ensures var h, t := LowerParams(g, ps), Run(c, ops, s, n);
      StmtDone(g, h, s, t, Bind(ps, vs)) && t.out == s.out && h.scopes != []
    decreases ps
  {
    hide Extends, Match, Terminated, LowerParam, Keeps, Grows, StmtDone, Run, Open, Ready;
    if ps == [] {
      n := 0;
      SimNoParams(c, ops, g, s);
    } else {
      var i := |ps| - 1;
      var g1 := LowerParams(g, ps[..i]);
      ShapeParams(g, ps[..i], lo);
      ParamStages(c, g1, ps[i], i, lo);
      n := SimParams(c, ops, g, ps[..i], vs[..i], s, lo);
      var s1 := Run(c, ops, s, n);
      ParamMidway(g, g1, s, s1, Bind(ps[..i], vs[..i]));
      SimParam(c, ops, g1, ps[i], i, vs[i], Bind(ps[..i], vs[..i]), s1);
      StmtDoneLater(g, g1, LowerParams(g, ps), s, s1, Run(c, ops, s1, 2), Bind(ps, vs));
      RunTwice(c, ops, s, n, 2);
      n := n + 2;
    }
  }

  lemma ParamMidway(g: Gen, h: Gen, s: State, t: State, env: Env)
    requires StmtDone(g, h, s, t, env)
    ensures At(h, t) && Match(h, env, t.cur) && Keeps(g, s, t) && t.cur.args == s.cur.args
  {
  }

  lemma StmtDoneLater(g: Gen, g1: Gen, h: Gen, s: State, s1: State, t: State, env: Env)
    requires Keeps(g, s, s1) && Grows(g, g1) && StmtDone(g1, h, s1, t, env)
    ensures StmtDone(g, h, s, t, env)
  {
    KeepsTransitive(g, g1, s, s1, t);
  }

  lemma ParamStages(c: Code, g: Gen, p: Param, i: nat, lo: nat)
    requires Ready(g, lo) && Extends(LowerParam(g, p, i).code, c)
    ensures var slot, t := NextReg(g), ToLType(p.ty);
      var g1 := EmitDef(g, PtrTo(t), Alloca(slot, t));
      && Open(g) && Open(g1) && Extends(g1.code, c) && Extends(Emit(g1, Store(Arg(i), slot)).code, c) && Extends(g.code, c)
  {
    var slot, t := NextReg(g), ToLType(p.ty);
    var g1 := EmitDef(g, PtrTo(t), Alloca(slot, t));
    ShapeDef(g, PtrTo(t), Alloca(slot, t), lo);
    ExtendsEmit(c, g1, Store(Arg(i), slot));
    ExtendsTransitive(g.code, g1.code, c);
  }

  lemma SimParam(c: Code, ops: FloatOps, g: Gen, p: Param, i: nat, v: Val, env: Env, s: State)
    requires At(g, s) && Open(g) && g.scopes != [] && Match(g, env, s.cur)
    requires i < |s.cur.args| && s.cur.args[i] == v
    requires var slot, t := NextReg(g), ToLType(p.ty);
      var g1 := EmitDef(g, PtrTo(t), Alloca(slot, t));
      Open(g1) && Extends(g1.code, c) && Extends(Emit(g1, Store(Arg(i), slot)).code, c)
    ensures var h, u := LowerParam(g, p, i), Run(c, ops, s, 2);
      StmtDone(g, h, s, u, env[p.name := v]) && u.out == s.out && h.scopes != []
  {
    hide Extends, Match, Terminated;
    var slot, t := NextReg(g), ToLType(p.ty);
    var g1 := EmitDef(g, PtrTo(t), Alloca(slot, t));
    StepAlloca(c, ops, g, t, s);
    var s1 := Run(c, ops, s, 1);
    StepStore(c, ops, g1, Arg(i), slot, v, s1);
    var s2 := Run(c, ops, s1, 1);
    RunTwice(c, ops, s, 1, 1);
    KeepsTransitive(g, g1, s, s1, s2);
    LookupDeclared(g.scopes, p.name, slot);
    MatchDeclared(g, LowerParam(g, p, i), env, p.name, slot, |s.cur.cells|, v, s, s2);
  }
}
