/** Programs that the parser accepts without a message and code generation rejects, or reads in
    another way. */
module Disagreements {
  import opened Wrappers
  import opened Values
  import opened Ast
  import opened Source
  import opened Ir
  import opened Lowering
  import opened Scoping
  import opened Declarations
  import opened Acceptance
  import opened Correctness
  import opened Typing
  import opened WellTyped
  import opened Duplicates
  import opened SourceText
  import P = Parsing
  import R = Printing

  /** `func f : int { { int x = 1 } return x }` */
  const OUT_OF_BLOCK: Program := [
    FunctionDef("f", [], Block([Block([Assign("x", INTEGER, IntLit(1))]), Return(Var("x", INTEGER))]), INTEGER)]

  /** `func f(int a) : int return a`, and a call without an argument. */
  const ONE_ARGUMENT := FunctionDef("f", [Param("a", INTEGER)], Return(Var("a", INTEGER)), INTEGER)
  const NO_ARGUMENT := FunctionDef("g", [], Return(Call("f", [], INTEGER)), INTEGER)
  const WRONG_COUNT: Program := [ONE_ARGUMENT, NO_ARGUMENT]

  /** `func f : bool return True == 1` */
  const MIXED: Program := [FunctionDef("f", [], Return(Binary(BOOL, Eq, BoolLit(true), IntLit(1))), BOOL)]

  /** `func f(int x, float x) : int return x` */
  const TWO_PARAMETERS: Program := [
    FunctionDef("f", [Param("x", INTEGER), Param("x", FLOAT)], Return(Var("x", INTEGER)), INTEGER)]

  /** `func f : bool return True`, and another `f` of type int that prints `f()`. */
  const FIRST_F := FunctionDef("f", [], Return(BoolLit(true)), BOOL)
  const SECOND_F := FunctionDef("f", [], Print(Call("f", [], BOOL)), INTEGER)
  const TWO_FUNCTIONS: Program := [FIRST_F, SECOND_F]

  // ----- rejected by code generation -----

  /** A name is used after the block that declares it: one flat scope in the parser, levels in the
      generator. */
  lemma OutOfBlockIsRejected()
    ensures !LowerProgram(OUT_OF_BLOCK).ok && WellScopedFunction(OUT_OF_BLOCK[0])
  {
    OutOfBlockNotAccepted();
    hide LowerProgram, AcceptsProgram;
    CodeGenerationSucceedsExactlyWhen(OUT_OF_BLOCK);
  }

  lemma OutOfBlockNotAccepted()
    ensures !AcceptsProgram(OUT_OF_BLOCK) && WellScopedFunction(OUT_OF_BLOCK[0])
  {
    var names, ss := ParamNames([]), OUT_OF_BLOCK[0].body.stmts;
    assert ss[1..] == [Return(Var("x", INTEGER))] && "x" !in names;
    assert !AcceptsSeq(AritiesOf(OUT_OF_BLOCK[..1]), names, ss);
    assert ScopeAfter(ss[0], names) == names;
    assert WellScopedSeq(ss[1..], names) && WellScopedSeq(ss, names);
  }

  /** A call has not as many arguments as the function has parameters, which the parser does not count. */
  lemma WrongCountIsRejected()
    ensures !LowerProgram(WRONG_COUNT).ok && forall i :: 0 <= i < |WRONG_COUNT| ==> WellScopedFunction(WRONG_COUNT[i])
  {
    CodeGenerationSucceedsExactlyWhen(WRONG_COUNT);
    assert WRONG_COUNT[..2] == WRONG_COUNT && WRONG_COUNT[..1] == [ONE_ARGUMENT];
    assert AritiesOf([ONE_ARGUMENT])["f"] == 1;
    assert "f" != "g" by { assert "f"[0] != "g"[0]; }
    assert AritiesOf(WRONG_COUNT)["f"] == 1;
    assert !AcceptsStmt(AritiesOf(WRONG_COUNT[..2]), ParamNames([]), WRONG_COUNT[1].body);
  }

  // ----- a bool compared with an int -----

  /** The comparison is accepted by the parser and by code generation, and the code is ill typed. */
  lemma MixedIsIllTyped()
    ensures LowerProgram(MIXED).ok && !TypedCode(LowerProgram(MIXED).code)
  {
    hide LowerProgram, TypedCode, AcceptsProgram, Typable, UnmixedStmt;
    MixedAccepted();
    CodeGenerationSucceedsExactlyWhen(MIXED);
    TypesArePreservedExactlyWhen(MIXED);
  }

  lemma MixedAccepted()
    ensures AcceptsProgram(MIXED) && TypedProgram(MIXED) && DistinctNames(MIXED) && !UnmixedProgram(MIXED)
  {
    assert TypedBody(MIXED, map[], MIXED[0]);
    assert !UnmixedStmt(MIXED[0].body);
  }

  // ----- two parameters of one name -----

  /** The parser takes the use of `x` for the int, its cell holds the float: the run faults. */
  lemma SecondParameterIsRead(ops: FloatOps, a: I32, b: F32)
    ensures Compilable(TWO_PARAMETERS) && 0 < |LowerProgram(TWO_PARAMETERS).code.fns| && !EndsAgree(TWO_PARAMETERS[0].params)
    ensures exists n: nat ::
      After(TWO_PARAMETERS, ops, 0, [IntV(a), FloatV(b)], n).status == Faulted(TypeMismatch)
  {
    var p, vs := TWO_PARAMETERS, [IntV(a), FloatV(b)];
    TwoParametersAccepted();
    TwoParametersMean(ops, a, b);
    hide Meaning, After, AcceptsProgram, AssuredFunction, LowerProgram;
    AllFunctionsKnown(p, 0);
    var n := MachineFollowsInterpreter(p, ops, 0, vs, 1);
    assert After(p, ops, 0, vs, n).status == Faulted(TypeMismatch);
    assert First(p[0].params, 0) && Last(p[0].params, 1);
  }

  lemma TwoParametersAccepted()
    ensures Compilable(TWO_PARAMETERS)
  {
    var d := TWO_PARAMETERS[0];
    assert d.params[0].name == "x";
    assert "x" in ParamNames(d.params);
    assert AcceptsProgram(TWO_PARAMETERS) && AssuredFunction(d);
  }

  lemma TwoParametersMean(ops: FloatOps, a: I32, b: F32)
    ensures Meaning(TWO_PARAMETERS, ops, 0, [IntV(a), FloatV(b)], 1) == Halted(IllTyped, [])
  {
    var w, d := World(TWO_PARAMETERS, ops), TWO_PARAMETERS[0];
    var env := Bind(d.params, [IntV(a), FloatV(b)]);
    assert env["x"] == FloatV(b);
    assert Eval(w, Var("x", INTEGER), env, [], 0) == Halted(IllTyped, []);
    assert Exec(w, d.body, env, INTEGER, [], 0) == Stopped(IllTyped, []);
  }

  // ----- two functions of one name -----

  /** The parser takes the call for one of the first `f`, code generation for one of the second: an
      int is widened as a bool. */
  lemma SecondFunctionIsCalled()
    ensures LowerProgram(TWO_FUNCTIONS).ok && !TypedCode(LowerProgram(TWO_FUNCTIONS).code)
    ensures UnmixedProgram(TWO_FUNCTIONS) && !DistinctNames(TWO_FUNCTIONS)
  {
    TwoFunctionsAccepted();
    hide LowerFunction, TypedCode, AcceptsProgram;
    CodeGenerationSucceedsExactlyWhen(TWO_FUNCTIONS);
    CodeGenerationSucceedsExactlyWhen([FIRST_F]);
    GeneratorTakesLast([FIRST_F]);
    TwoFunctionsLower(LowerProgram([FIRST_F]));
    assert TWO_FUNCTIONS[..1] == [FIRST_F];
    assert LowerProgram(TWO_FUNCTIONS) == LowerFunction(LowerProgram([FIRST_F]), SECOND_F);
  }

  lemma TwoFunctionsAccepted()
    ensures AcceptsProgram(TWO_FUNCTIONS) && AcceptsProgram([FIRST_F])
    ensures UnmixedProgram(TWO_FUNCTIONS) && !DistinctNames(TWO_FUNCTIONS)
  {
    assert TWO_FUNCTIONS[..2] == TWO_FUNCTIONS && TWO_FUNCTIONS[..1] == [FIRST_F];
    assert "f" in AritiesOf(TWO_FUNCTIONS) && AritiesOf(TWO_FUNCTIONS)["f"] == 0;
    assert TWO_FUNCTIONS[0].name == TWO_FUNCTIONS[1].name;
  }

  lemma TwoFunctionsLower(g: Gen)
    requires |g.code.fns| == 1 && g.ok
    ensures !TypedCode(LowerFunction(g, SECOND_F).code)
  {
    var g0, l, r := StartFunction(g, SECOND_F), NextLabel(g), NextReg(g);
    var call := CallFn(r, 1, []);
    assert LowerParams(g0, []) == g0;
    var g1 := EmitDef(g0, I32T, call);
    assert LowerExpr(g0, Call("f", [], BOOL)) == Lowered(g1, Some(Reg(r)));
    var g2 := LowerStmt(g0, SECOND_F.body);
    assert g2 == LowerPrint(g1, BOOL, Reg(r));
    var c := LowerFunction(g, SECOND_F).code;
    assert c.blocks[l].code[1] == Op1(r + 1, ZExtI, Reg(r));
    assert c.regs[r] == I32T;
    assert !TypedInstr(c, c.fns[1].params, c.fns[1].ret, c.blocks[l].code[1]);
    assert !TypedBlock(c, l);
  }

  // ----- the parser accepts them -----

  lemma ProperNames()
    ensures R.Identifier("f") && R.Identifier("g") && R.Identifier("a") && R.Identifier("x")
  {
  }

  lemma OutOfBlockPrintable(k: P.FloatReader)
    ensures R.PrintableFile(k, map[], OUT_OF_BLOCK)
  {
    ProperNames();
    hide R.Identifier;
    var funcs: P.Table := P.Insert(map[], "f", INTEGER);
    var ss, inner := OUT_OF_BLOCK[0].body.stmts, [Assign("x", INTEGER, IntLit(1))];
    var scope: P.Table := map["x" := Some(INTEGER)];
    assert R.ScopeOf(map[], inner[0]) == scope && inner[1..] == [];
    assert R.PrintableStmt(k, map[], funcs, inner[0]);
    assert R.PrintableSeq(k, map[], funcs, inner);
    assert R.ScopeOfSeq(map[], inner) == scope;
    assert R.ScopeOf(map[], ss[0]) == scope && ss[1..] == [Return(Var("x", INTEGER))] && ss[1..][1..] == [];
    assert R.PrintableStmt(k, scope, funcs, ss[1..][0]);
    assert R.PrintableSeq(k, scope, funcs, ss[1..]);
    assert R.PrintableFunction(k, map[], OUT_OF_BLOCK[0]);
  }

  lemma WrongCountPrintable(k: P.FloatReader)
    ensures R.PrintableFile(k, map[], WRONG_COUNT)
  {
    ProperNames();
    hide R.Identifier;
    var f: P.Table := map["f" := Some(INTEGER)];
    assert P.Insert(map[], "f", INTEGER) == f;
    assert ONE_ARGUMENT.params[..0] == [];
    assert P.ParamScope(ONE_ARGUMENT.params) == map["a" := Some(INTEGER)];
    assert R.PrintableFunction(k, map[], ONE_ARGUMENT);
    assert R.PrintableFunction(k, f, NO_ARGUMENT);
    assert WRONG_COUNT[1..] == [NO_ARGUMENT] && [NO_ARGUMENT][1..] == [];
    assert R.PrintableFile(k, f, [NO_ARGUMENT]);
  }

  lemma MixedPrintable(k: P.FloatReader)
    ensures R.PrintableFile(k, map[], MIXED)
  {
    ProperNames();
    hide R.Identifier;
    assert MIXED[1..] == [];
    assert R.PrintableFunction(k, map[], MIXED[0]);
  }

  lemma TwoParametersPrintable(k: P.FloatReader)
    ensures R.PrintableFile(k, map[], TWO_PARAMETERS)
  {
    ProperNames();
    hide R.Identifier;
    var d := TWO_PARAMETERS[0];
    assert d.params[..1] == [Param("x", INTEGER)] && [Param("x", INTEGER)][..0] == [];
    assert P.ParamScope(d.params) == map["x" := Some(INTEGER)];
    assert R.PrintableFunction(k, map[], d);
    assert TWO_PARAMETERS[1..] == [];
  }

  lemma TwoFunctionsPrintable(k: P.FloatReader)
    ensures R.PrintableFile(k, map[], TWO_FUNCTIONS)
  {
    ProperNames();
    hide R.Identifier;
    var f: P.Table := map["f" := Some(BOOL)];
    assert P.Insert(map[], "f", BOOL) == f == P.Insert(f, "f", INTEGER);
    assert R.PrintableFunction(k, map[], FIRST_F) && R.PrintableFunction(k, f, SECOND_F);
    assert TWO_FUNCTIONS[1..] == [SECOND_F] && [SECOND_F][1..] == [];
    assert R.PrintableFile(k, f, [SECOND_F]);
  }

  /** Each of these programs is what the parser makes of some text, without a message. */
  lemma TheParserAcceptsThem(k: P.FloatReader, p: Program)
    requires p == OUT_OF_BLOCK || p == WRONG_COUNT || p == MIXED || p == TWO_PARAMETERS || p == TWO_FUNCTIONS
    ensures var r := P.Parse(k, TokensOf(SourceOf(k, p)));
      r.root == P.Vector(p) && !r.s.diagnosed && !r.s.isError
  {
    hide R.PrintableFile;
    OutOfBlockPrintable(k);
    WrongCountPrintable(k);
    MixedPrintable(k);
    TwoParametersPrintable(k);
    TwoFunctionsPrintable(k);
    ReadingUndoesWriting(k, p);
  }
}
