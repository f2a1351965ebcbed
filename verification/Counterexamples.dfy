/** Programs that the parser accepts and on which the compiler is not faithful. */
module Counterexamples {
  import opened Wrappers
  import opened Values
  import opened Ast
  import opened Source
  import opened Ir
  import opened Lowering
  import opened Unfolding
  import opened Scoping
  import opened Correctness
  import opened Programs
  import opened Acceptance
  import opened Declarations
  import Parsing
  import Printing
  import SourceText

  /** `f` prints 1; the program calls it as a statement. */
  const CALLED := FunctionDef("f", [], Block([Print(IntLit(1)), Return(IntLit(0))]), INTEGER)
  const CALLER := FunctionDef("mast", [], Block([CallStmt(Call("f", [], INTEGER)), Return(IntLit(0))]), INTEGER)
  const CALLING: Program := [CALLED, CALLER]

  lemma CalledPrints(w: World, out: seq<Event>, fuel: nat)
    requires w.p == CALLING && fuel > 0
    ensures CallFunction(w, 0, [], out, fuel) == Value(IntV(0), out + [PrintInt(1)])
  {
    var ss := CALLED.body.stmts;
    assert ss[1..] == [Return(IntLit(0))];
    assert Exec(w, ss[0], map[], INTEGER, out, fuel - 1) == Normal(map[], out + [PrintInt(1)]);
    assert Exec(w, ss[1..][0], map[], INTEGER, out + [PrintInt(1)], fuel - 1) == StmtResult.Returned(IntV(0), out + [PrintInt(1)]);
    ExecSeqCons(w, ss[1..], map[], INTEGER, out + [PrintInt(1)], fuel - 1);
    ExecSeqCons(w, ss, map[], INTEGER, out, fuel - 1);
    assert Bind([], []) == map[];
  }

  /** The call statement prints 1 in the language; code generation accepts the program, and its run
      returns the same value and prints nothing. */
  lemma DroppedCallChangesOutput(ops: FloatOps)
    ensures LowerProgram(CALLING).ok && 1 < |LowerProgram(CALLING).code.fns|
    ensures Meaning(CALLING, ops, 1, [], 2) == Value(IntV(0), [PrintInt(1)])
    ensures exists n: nat :: var t := After(CALLING, ops, 1, [], n); t.status == Finished(IntV(0)) && t.out == []
  {
    hide LowerProgram, Meaning, After, Assured, Exec;
    DroppedCallMeans(ops);
    CallingLowers();
    hide AcceptsProgram;
    assert CALLING[0].name[0] != CALLING[1].name[0];
    assert DistinctNames(CALLING);
    CallingIsAssured();
    var n := CallStatementsAreDropped(CALLING, ops, 1, [], 2);
    assert After(CALLING, ops, 1, [], n).out == [];
  }

  lemma CallingIsAssured()
    ensures forall j :: 0 <= j < |CALLING| ==> AssuredFunction(CALLING[j])
  {
    var names := ParamNames([]);
    forall s, ns: set<string> | s == Print(IntLit(1)) || s == Return(IntLit(0)) || s == CallStmt(Call("f", [], INTEGER))
      ensures Assured(s, ns, ns) && BoundAfter(s, ns) == ns == SureAfter(s, ns, ns)
    {
    }
    assert AssuredAll([Return(IntLit(0))], names, names);
    assert CALLED.body.stmts[1..] == [Return(IntLit(0))] == CALLER.body.stmts[1..];
  }

  lemma CallingLowers()
    ensures LowerProgram(CALLING).ok && AcceptsProgram(CALLING)
  {
    CodeGenerationSucceedsExactlyWhen(CALLING);
    forall ar: Arities, names: set<string>, s | s == CALLED.body.stmts[0] || s == CALLER.body.stmts[0]
      ensures AcceptsSeq(ar, names, [s, Return(IntLit(0))])
    {
      assert [s, Return(IntLit(0))][1..] == [Return(IntLit(0))];
      assert AcceptsSeq(ar, BoundAfter(s, names), [Return(IntLit(0))]);
    }
  }

  lemma DroppedCallMeans(ops: FloatOps)
    ensures Meaning(CALLING, ops, 1, [], 2) == Value(IntV(0), [PrintInt(1)])
    ensures Meaning(EraseProgram(CALLING), ops, 1, [], 2) == Value(IntV(0), [])
  {
    var w := World(CALLING, ops);
    CalledPrints(w, [], 1);
    var ss := CALLER.body.stmts;
    assert ss[1..] == [Return(IntLit(0))];
    assert FindFunction(CALLING, "f") == Some(0) by {
      assert CALLING[..1] == [CALLED];
      assert FindFunction([CALLED], "f") == Some(0);
      assert CALLING[1].name[0] == 'm';
    }
    assert Eval(w, Call("f", [], INTEGER), map[], [], 1) == Value(IntV(0), [PrintInt(1)]);
    assert Exec(w, ss[0], map[], INTEGER, [], 1) == Normal(map[], [PrintInt(1)]);
    assert ExecSeq(w, ss[1..], map[], INTEGER, [PrintInt(1)], 1) == StmtResult.Returned(IntV(0), [PrintInt(1)]);
    var q := EraseProgram(CALLING);
    var v := World(q, ops);
    var ts := EraseSeq(ss);
    assert q[1].body == Block(ts);
    assert ts == [Block([]), Return(IntLit(0))] by {
      assert EraseSeq([Return(IntLit(0))]) == [Return(IntLit(0))];
    }
    assert ts[1..] == [Return(IntLit(0))];
    assert Exec(v, Block([]), map[], INTEGER, [], 1) == Normal(map[], []);
    assert ExecSeq(v, ts[1..], map[], INTEGER, [], 1) == StmtResult.Returned(IntV(0), []);
  }

  /** `if False int x = 1` followed by `print x`. */
  const BARE := Block([
    If(BoolLit(false), Assign("x", INTEGER, IntLit(1)), None),
    Print(Var("x", INTEGER)),
    Return(IntLit(0))])
  const BARELY: Program := [FunctionDef("mast", [], BARE, INTEGER)]

  /** The code of `BARELY`: the cell of `x` is allocated only in the branch. */
  const BARE_CODE := [
    BasicBlock([CondBr(CBool(false), 1, 2)], Some(0)),
    BasicBlock([Alloca(0, I32T), Store(CInt(1), 0), Br(3)], Some(0)),
    BasicBlock([Br(3)], Some(0)),
    BasicBlock([Load(1, I32T, 0), PrintI32(Reg(1)), Ret(CInt(0))], Some(0))]

  const MAST := Fn("mast", [], I32T, 0)

  /** The generator inside the body of `mast`, with these blocks and registers. */
  function Inside(blocks: seq<BasicBlock>, regs: seq<LType>, insert: nat, scope: Scope): Gen {
    Gen(Code(blocks, regs, [MAST]), insert, [map[], scope], map["mast" := 0], 0, true)
  }

  const OPENED := [
    BARE_CODE[0], BasicBlock([], Some(0)), BasicBlock([], None), BasicBlock([], None)]
  const BRANCHED := [BARE_CODE[0], BARE_CODE[1], BARE_CODE[2], BasicBlock([], Some(0))]
  const X_SCOPE: Scope := map["x" := 0]

  /** Emitting in terms of the finished code of the insert block. */
  lemma Emitted(g: Gen, i: Instr, code: seq<Instr>)
    requires g.insert < |g.code.blocks| && code == g.code.blocks[g.insert].code + [i]
    ensures Emit(g, i).code.blocks == g.code.blocks[g.insert := BasicBlock(code, g.code.blocks[g.insert].parent)]
  {
  }

  lemma BareStarts()
    ensures StartIf(Inside([BasicBlock([], Some(0))], [], 0, map[]), CBool(false)) == Inside(OPENED, [], 1, map[])
  {
    var g := Inside([BasicBlock([], Some(0))], [], 0, map[]);
    var g1 := CreateBlock(CreateBlock(CreateBlock(g, Some(0)), None), None);
    Emitted(g1, CondBr(CBool(false), 1, 2), BARE_CODE[0].code);
    assert Emit(g1, CondBr(CBool(false), 1, 2)).code.blocks == OPENED;
  }

  lemma NoX()
    ensures Lookup([map[], map[]], "x").None? && Lookup([map[], X_SCOPE], "x") == Some(0)
  {
    var m: seq<Scope> := [map[], map[]];
    assert m[..1] == [map[]] && m[..1][..0] == [];
  }

  lemma BareBranch()
    ensures LowerStmt(Inside(OPENED, [], 1, map[]), Assign("x", INTEGER, IntLit(1)))
         == Inside(OPENED[1 := BasicBlock([Alloca(0, I32T), Store(CInt(1), 0)], Some(0))], [PtrTo(I32T)], 1, X_SCOPE)
  {
    var g := Inside(OPENED, [], 1, map[]);
    NoX();
    var g1 := g.(code := g.code.(regs := [PtrTo(I32T)]));
    Emitted(g1, Alloca(0, I32T), [Alloca(0, I32T)]);
    assert EmitDef(g, PtrTo(I32T), Alloca(0, I32T)) == Emit(g1, Alloca(0, I32T));
    var g2 := Emit(g1, Alloca(0, I32T));
    Emitted(g2, Store(CInt(1), 0), [Alloca(0, I32T), Store(CInt(1), 0)]);
    var h := LowerAssign(g, "x", INTEGER, INTEGER, CInt(1));
    assert h.scopes == [map[], X_SCOPE];
    assert h.code.blocks == OPENED[1 := BasicBlock([Alloca(0, I32T), Store(CInt(1), 0)], Some(0))];
  }

  lemma BareIf()
    ensures LowerStmt(Inside([BasicBlock([], Some(0))], [], 0, map[]), BARE.stmts[0])
         == Inside(BRANCHED, [PtrTo(I32T)], 3, X_SCOPE)
  {
    BareStarts();
    BareBranch();
    hide StartIf, LowerAssign;
    var g3 := LowerStmt(Inside(OPENED, [], 1, map[]), Assign("x", INTEGER, IntLit(1)));
    Emitted(g3, Br(3), BARE_CODE[1].code);
    var g4 := SetInsert(Attach(BranchIfOpen(g3, 3), 2), 2);
    assert g4.code.blocks == [BARE_CODE[0], BARE_CODE[1], BasicBlock([], Some(0)), BasicBlock([], None)];
    Emitted(g4, Br(3), BARE_CODE[2].code);
    var g5 := SetInsert(Attach(BranchIfOpen(g4, 3), 3), 3);
    assert g5.code.blocks == BRANCHED;
    hide LowerStmt, Emit, BranchIfOpen;
    BareIfIs(g3, g4, g5);
  }

  lemma BareIfIs(g3: Gen, g4: Gen, g5: Gen)
    requires StartIf(Inside([BasicBlock([], Some(0))], [], 0, map[]), CBool(false)) == Inside(OPENED, [], 1, map[])
    requires g3 == LowerStmt(Inside(OPENED, [], 1, map[]), Assign("x", INTEGER, IntLit(1))) && g3.ok
    requires g4 == SetInsert(Attach(BranchIfOpen(g3, 3), 2), 2) && g4.ok
    requires g5 == SetInsert(Attach(BranchIfOpen(g4, 3), 3), 3)
    ensures LowerStmt(Inside([BasicBlock([], Some(0))], [], 0, map[]), BARE.stmts[0]) == g5
  {
    hide Emit, BranchIfOpen, LowerAssign, StartIf;
  }

  lemma BareTail()
    ensures LowerSeq(Inside(BRANCHED, [PtrTo(I32T)], 3, X_SCOPE), [Print(Var("x", INTEGER)), Return(IntLit(0))])
         == Inside(BARE_CODE, [PtrTo(I32T), I32T], 3, X_SCOPE)
  {
    var g := Inside(BRANCHED, [PtrTo(I32T)], 3, X_SCOPE);
    var ss := [Print(Var("x", INTEGER)), Return(IntLit(0))];
    var printed := BRANCHED[3 := BasicBlock([Load(1, I32T, 0), PrintI32(Reg(1))], Some(0))];
    NoX();
    var ga := g.(code := g.code.(regs := [PtrTo(I32T), I32T]));
    Emitted(ga, Load(1, I32T, 0), [Load(1, I32T, 0)]);
    assert EmitDef(g, I32T, Load(1, I32T, 0)) == Emit(ga, Load(1, I32T, 0));
    var gb := Emit(ga, Load(1, I32T, 0));
    Emitted(gb, PrintI32(Reg(1)), [Load(1, I32T, 0), PrintI32(Reg(1))]);
    var g1 := Emit(gb, PrintI32(Reg(1)));
    assert g1.code.blocks == printed;
    assert LowerStmt(g, ss[0]) == g1;
    Emitted(g1, Ret(CInt(0)), BARE_CODE[3].code);
    var g2 := Emit(g1, Ret(CInt(0)));
    assert g2.code.blocks == BARE_CODE;
    assert ss[1..] == [Return(IntLit(0))];
    assert LowerStmt(g1, Return(IntLit(0))) == g2;
    assert LowerSeq(g1, ss[1..]) == g2;
  }

  lemma BareLowers()
    ensures LowerProgram(BARELY).ok && LowerProgram(BARELY).code.blocks == BARE_CODE
    ensures LowerProgram(BARELY).code.fns == [MAST]
  {
    assert BARELY[..0] == [];
    BareBody();
    hide LowerStmt, StartFunction;
    var g, h := StartFunction(EMPTY_GEN, BARELY[0]), Inside(BARE_CODE, [PtrTo(I32T), I32T], 3, X_SCOPE);
    assert LowerParams(g, []) == g;
    assert LowerFunction(EMPTY_GEN, BARELY[0]) == h.(scopes := Popped(h.scopes));
  }

  lemma BareFunctionStarts()
    ensures var g := StartFunction(EMPTY_GEN, BARELY[0]);
      g.(scopes := g.scopes + [map[]]) == Inside([BasicBlock([], Some(0))], [], 0, map[])
  {
    var g := StartFunction(EMPTY_GEN, BARELY[0]);
    assert ToLTypes([]) == [];
    assert g.code.blocks == [BasicBlock([], Some(0))] && g.code.fns == [MAST];
  }

  lemma BareBody()
    ensures var g, h := StartFunction(EMPTY_GEN, BARELY[0]), Inside(BARE_CODE, [PtrTo(I32T), I32T], 3, X_SCOPE);
      LowerStmt(g, BARE) == h.(scopes := Popped(h.scopes)) && Terminated(InsertBlock(h)) && h.ok
  {
    BareFunctionStarts();
    BareIf();
    BareTail();
    hide StartIf, LowerAssign, Emit, LowerPrint, LowerReturn, StartFunction;
    var ss := BARE.stmts;
    assert ss[1..] == [Print(Var("x", INTEGER)), Return(IntLit(0))];
    var g := StartFunction(EMPTY_GEN, BARELY[0]);
    assert LowerSeq(g.(scopes := g.scopes + [map[]]), ss) == Inside(BARE_CODE, [PtrTo(I32T), I32T], 3, X_SCOPE);
  }

  /** Code generation accepts the program, and its run reads a register that was never written. */
  lemma BareDeclarationReadsUndefined(ops: FloatOps)
    ensures LowerProgram(BARELY).ok && !AssuredFunction(BARELY[0])
    ensures LowerProgram(BARELY).code.fns == [MAST]
    ensures After(BARELY, ops, 0, [], 3).status == Faulted(BadRegister)
  {
    BareLowers();
    NotAssured();
    BareRun(LowerProgram(BARELY).code, ops, Start(BARELY, 0, []));
  }

  lemma NotAssured()
    ensures !AssuredFunction(BARELY[0])
  {
    var names := ParamNames([]);
    var ss := BARE.stmts;
    assert "x" !in SureAfter(ss[0], names, names);
    assert ss[1..][0] == Print(Var("x", INTEGER)) && "x" in NamesIn(Var("x", INTEGER));
    assert !Assured(ss[1..][0], BoundAfter(ss[0], names), SureAfter(ss[0], names, names));
    assert !AssuredAll(ss[1..], BoundAfter(ss[0], names), SureAfter(ss[0], names, names));
  }

  lemma BareRun(c: Code, ops: FloatOps, s: State)
    requires c.blocks == BARE_CODE && s.status.Running? && s.cur.lbl == 0 && s.cur.pc == 0 && s.cur.regs == map[]
    ensures Run(c, ops, s, 3).status == Faulted(BadRegister)
  {
    var s1, s2 := Jump(s, 2), Jump(Jump(s, 2), 3);
    var s3 := Fail(s2, BadRegister);
    assert Step(c, ops, s) == s1;
    assert Step(c, ops, s1) == s2;
    assert Step(c, ops, s2) == s3;
    hide Step;
    assert Run(c, ops, s2, 1) == Run(c, ops, s3, 0);
    assert Run(c, ops, s1, 2) == Run(c, ops, s2, 1);
  }

  // ----- falling off the end -----

  /** `f` prints 1 and returns nothing. */
  const FALLING: Program := [FunctionDef("f", [], Block([Print(IntLit(1))]), INTEGER)]

  lemma FallingLowers()
    ensures LowerProgram(FALLING).ok && AcceptsProgram(FALLING)
  {
    CodeGenerationSucceedsExactlyWhen(FALLING);
    assert [Print(IntLit(1))][1..] == [];
  }

  lemma FallingMeans(ops: FloatOps)
    ensures Meaning(FALLING, ops, 0, [], 1) == Halted(FellOff, [PrintInt(1)])
  {
    var w := World(FALLING, ops);
    var ss := FALLING[0].body.stmts;
    assert ss[1..] == [];
    assert Bind([], []) == map[];
    assert Exec(w, ss[0], map[], INTEGER, [], 0) == Normal(map[], [PrintInt(1)]);
    ExecSeqCons(w, ss, map[], INTEGER, [], 0);
    assert ExecSeq(w, ss, map[], INTEGER, [], 0) == Normal(map[], [PrintInt(1)]);
  }

  /** Code generation accepts the program, and its run reaches the `unreachable` at the end. */
  lemma UnreachableIsReached(ops: FloatOps)
    ensures LowerProgram(FALLING).ok && 0 < |LowerProgram(FALLING).code.fns|
    ensures exists n: nat ::
      var t := After(FALLING, ops, 0, [], n); t.status == ReachedUnreachable && t.out == [PrintInt(1)]
  {
    hide LowerProgram, Meaning, After;
    FallingLowers();
    FallingMeans(ops);
    assert FALLING[0].body.stmts[1..] == [];
    hide AcceptsProgram;
    assert Compilable(FALLING);
    AllFunctionsKnown(FALLING, 0);
    UnreachableExactlyWhenFallingOff(FALLING, ops, 0, [], [PrintInt(1)]);
  }

  // ----- the parser accepts them -----

  lemma ProperNames()
    ensures Printing.Identifier("f") && Printing.Identifier("mast") && Printing.Identifier("x")
  {
  }

  lemma SimplePrintable(k: Parsing.FloatReader, scope: Parsing.Table, funcs: Parsing.Table)
    ensures Printing.PrintableStmt(k, scope, funcs, Print(IntLit(1)))
    ensures Printing.PrintableSeq(k, scope, funcs, [Return(IntLit(0))])
    ensures Printing.PrintableSeq(k, scope, funcs, [Print(IntLit(1))])
  {
    assert [Return(IntLit(0))][1..] == [] && [Print(IntLit(1))][1..] == [];
    assert Printing.PrintableStmt(k, scope, funcs, Return(IntLit(0)));
  }

  lemma BodyPrintable(k: Parsing.FloatReader, scope: Parsing.Table, funcs: Parsing.Table)
    ensures Printing.PrintableStmt(k, scope, funcs, CALLED.body)
    ensures "f" in funcs && funcs["f"] == Some(INTEGER) ==> Printing.PrintableStmt(k, scope, funcs, CALLER.body)
  {
    SimplePrintable(k, scope, funcs);
    ProperNames();
    assert CALLED.body.stmts[1..] == [Return(IntLit(0))] == CALLER.body.stmts[1..];
    hide Printing.Identifier;
    var call := CALLER.body.stmts[0];
    assert Printing.ScopeOf(scope, call) == scope;
    if "f" in funcs && funcs["f"] == Some(INTEGER) {
      assert Printing.PrintableStmt(k, scope, funcs, call);
    }
  }

  lemma BarePrintable(k: Parsing.FloatReader, funcs: Parsing.Table)
    ensures Printing.PrintableStmt(k, map[], funcs, BARE)
  {
    ProperNames();
    hide Printing.Identifier;
    var ss := BARE.stmts;
    var scope: Parsing.Table := map["x" := Some(INTEGER)];
    assert Printing.ScopeOf(map[], ss[0]) == scope;
    assert Printing.PrintableStmt(k, map[], funcs, ss[0]);
    assert ss[1..][0] == Print(Var("x", INTEGER)) && ss[1..][1..] == [Return(IntLit(0))];
    SimplePrintable(k, scope, funcs);
    assert Printing.PrintableStmt(k, scope, funcs, ss[1..][0]);
    assert Printing.PrintableSeq(k, scope, funcs, ss[1..]);
  }

  lemma CanBePrinted(k: Parsing.FloatReader)
    ensures Printing.PrintableFile(k, map[], CALLING) && Printing.PrintableFile(k, map[], BARELY)
    ensures Printing.PrintableFile(k, map[], FALLING)
  {
    hide Printing.Identifier, Printing.PrintableStmt;
    ProperNames();
    var f: Parsing.Table := map["f" := Some(INTEGER)];
    BodyPrintable(k, map[], f);
    BodyPrintable(k, map[], Parsing.Insert(f, "mast", INTEGER));
    BarePrintable(k, Parsing.Insert(map[], "mast", INTEGER));
    FallingPrintable(k, f);
    assert CALLING[1..] == [CALLER] && CALLING[1..][1..] == [] && BARELY[1..] == [] && FALLING[1..] == [];
    assert Parsing.Insert(map[], "f", INTEGER) == f;
    assert Printing.PrintableFunction(k, f, CALLER);
    assert Printing.PrintableFile(k, f, [CALLER]);
  }

  lemma FallingPrintable(k: Parsing.FloatReader, funcs: Parsing.Table)
    ensures Printing.PrintableStmt(k, map[], funcs, FALLING[0].body)
  {
    SimplePrintable(k, map[], funcs);
  }

  /** Each of these programs is what the parser makes of some text, without a message. */
  lemma TheParserAcceptsThem(k: Parsing.FloatReader, p: Program)
    requires p == CALLING || p == BARELY || p == FALLING
    ensures var r := Parsing.Parse(k, SourceText.TokensOf(SourceText.SourceOf(k, p)));
      r.root == Parsing.Vector(p) && !r.s.diagnosed && !r.s.isError
  {
    CanBePrinted(k);
    SourceText.ReadingUndoesWriting(k, p);
  }
}
