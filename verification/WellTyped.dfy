/** Type preservation for whole programs. */
module WellTyped {
  import opened Wrappers
  import opened Ast
  import opened Ir
  import opened Lowering
  import opened FlowGraph
  import opened Calls
  import opened Correctness
  import opened Typing
  import opened TypePreservation

  lemma StartTyped(k: Setting, g: Gen, i: nat)
    requires KnowsFunctions(g, k.p) && |g.code.fns| == i < |k.p| && DistinctNames(k.p) && k.lo == NextLabel(g)
    ensures var h := StartFunction(g, k.p[i]);
      && Visitable(k, h, true) && Params(h) == ToLTypes(k.p[i].params) && Result(h) == ToLType(k.p[i].ty)
      && |h.scopes| == 1
  {
    ShapeStartFunction(g, k.p[i]);
  }

  lemma TypeFunction(k: Setting, g: Gen, i: nat)
    requires KnowsFunctions(g, k.p) && |g.code.fns| == i < |k.p| && DistinctNames(k.p) && k.lo == NextLabel(g)
    requires TypedBody(k.p, k.names, k.p[i]) && LowerFunction(g, k.p[i]).ok
    ensures TypedState(k, LowerFunction(g, k.p[i]), UnmixedStmt(k.p[i].body))
  {
    hide TypedState, StartFunction, LowerParams, LowerStmt;
    var d := k.p[i];
    StartTyped(k.(names := map[]), g, i);
    ShapeBody(g, d);
    TypeParams(k, StartFunction(g, d), d.params, true);
    MoreNames(k, LastTypes(d.params), BodyStart(g, d), true);
    TypeStmt(k, BodyStart(g, d), d.body, true);
    EmitStays(k, BodyEnd(g, d), Unreachable, UnmixedStmt(d.body));
  }

  /** A typed instruction stays typed when registers and functions are added. */
  lemma InstrStays(c: Code, d: Code, params: seq<LType>, ret: LType, i: Instr)
    requires TypedInstr(c, params, ret, i) && c.regs <= d.regs && c.fns <= d.fns
    ensures TypedInstr(d, params, ret, i)
  {
    if i.CallFn? {
      forall k | 0 <= k < |i.args| ensures TypeOf(d, params, i.args[k]) == Some(d.fns[i.fn].params[k]) {
        assert TypeOf(c, params, i.args[k]) == Some(c.fns[i.fn].params[k]);
      }
    }
  }

  lemma OldBlockTyped(c: Code, d: Code, l: nat)
    requires l < |c.blocks| && TypedBlock(c, l) && c.blocks <= d.blocks && c.regs <= d.regs && c.fns <= d.fns
    ensures TypedBlock(d, l)
  {
    var b := c.blocks[l];
    assert d.blocks[l] == b;
    var fn := c.fns[b.parent.value];
    forall k | 0 <= k < |b.code| ensures TypedInstr(d, fn.params, fn.ret, b.code[k]) {
      InstrStays(c, d, fn.params, fn.ret, b.code[k]);
    }
  }

  lemma NewBlockTyped(k: Setting, g: Gen, h: Gen, l: nat)
    requires TypedState(k, h, true) && k.lo == NextLabel(g) <= l < |h.code.blocks|
    requires h.code.blocks[l].parent == Some(h.cur)
    ensures TypedBlock(h.code, l)
  {
    var b := h.code.blocks[l];
    assert InstrsTyped(h, b.code);
    forall m | 0 <= m < |b.code|
      ensures TypedInstr(h.code, h.code.fns[h.cur].params, h.code.fns[h.cur].ret, b.code[m])
    {
    }
  }

  lemma FunctionTyped(k: Setting, g: Gen, i: nat)
    requires KnowsFunctions(g, k.p) && |g.code.fns| == i < |k.p| && DistinctNames(k.p) && k.lo == NextLabel(g)
    requires TypedBody(k.p, k.names, k.p[i]) && LowerFunction(g, k.p[i]).ok
    ensures var c := LowerFunction(g, k.p[i]).code;
      if UnmixedStmt(k.p[i].body) then TypedCode(g.code) ==> TypedCode(c) else MixedCode(c)
  {
    hide TypedBlock, TypedState, LowerFunction, MixedCode;
    var h := LowerFunction(g, k.p[i]);
    TypeFunction(k, g, i);
    FunctionAppends(g, k.p[i]);
    FunctionWellFormed(g, k.p[i]);
    FunctionIsCurrent(g, k.p[i]);
    if UnmixedStmt(k.p[i].body) && TypedCode(g.code) {
      forall l: nat | l < |h.code.blocks| ensures TypedBlock(h.code, l) {
        if l < NextLabel(g) {
          OldBlockTyped(g.code, h.code, l);
        } else {
          NewBlockTyped(k, g, h, l);
        }
      }
    } else if !UnmixedStmt(k.p[i].body) {
      StateIsMixed(k, h);
    }
  }

  lemma StateIsMixed(k: Setting, g: Gen)
    requires TypedState(k, g, false)
    ensures MixedCode(g.code)
  {
  }

  lemma FunctionIsCurrent(g: Gen, d: FunctionDef)
    ensures LowerFunction(g, d).cur == |g.code.fns|
  {
    ShapeStartFunction(g, d);
    ShapeBody(g, d);
  }

  lemma {:induction false} ProgramTyped(p: Program, i: nat)
    requires TypedProgram(p) && DistinctNames(p) && i <= |p| && LowerProgram(p[..i]).ok
    ensures if UnmixedProgram(p[..i]) then TypedCode(LowerProgram(p[..i]).code) else MixedCode(LowerProgram(p[..i]).code)
    decreases i
  {
    hide TypedCode, MixedCode, LowerFunction, KnowsFunctions, TypedBody, TypedState, Appends, DistinctNames;
    if i > 0 {
      var q := p[..i];
      assert q[..i - 1] == p[..i - 1];
      var g := LowerProgram(p[..i - 1]);
      PrefixKnows(p, i - 1);
      FunctionAppends(g, p[i - 1]);
      ProgramTyped(p, i - 1);
      assert Typable(p, p[i - 1]);
      var names :| TypedBody(p, names, p[i - 1]);
      FunctionTyped(Setting(p, names, NextLabel(g)), g, i - 1);
      if !UnmixedProgram(p[..i - 1]) {
        AppendsExtends(g, LowerProgram(q));
        MixedExtends(g.code, LowerProgram(q).code);
      }
    } else {
      NothingTyped();
    }
  }

  lemma NothingTyped()
    ensures TypedCode(EMPTY_GEN.code)
  {
  }

  /** For a well-typed tree the code is well typed (every instruction has operands of matching
      types, every branch condition is an `i1`, every `ret` has its function's type) exactly if no
      comparison for which code is generated mixes a bool with an int. */
  lemma TypesArePreservedExactlyWhen(p: Program)
    requires TypedProgram(p) && DistinctNames(p) && LowerProgram(p).ok
    ensures TypedCode(LowerProgram(p).code) <==> UnmixedProgram(p)
  {
    assert p[..|p|] == p;
    ProgramTyped(p, |p|);
    if !UnmixedProgram(p) {
      MixedIsIllTyped(LowerProgram(p).code);
    }
  }
}
