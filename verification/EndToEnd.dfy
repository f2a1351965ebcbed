/** From tokens to the emitted code: what the parser accepts is well typed, so the theorems about
    code generation apply to it. */
module EndToEnd {
  import opened Wrappers
  import opened Values
  import opened Ast
  import opened Parsing
  import opened Printing
  import Image
  import opened SourceText
  import Source
  import Ir
  import opened Lowering
  import opened Calls
  import opened Typing
  import opened WellTyped
  import opened Duplicates
  import opened Correctness
  import opened Soundness
  import T = Tokens

  /** A table of types is part of another. */
  ghost predicate Within(a: Table, names: Names) {
    forall x :: x in a && a[x].Some? ==> x in names && names[x] == a[x].value != UNDEFINED
  }

  /** Every function the parser knows is one of the program's, with its type. */
  ghost predicate KnownTo(funcs: Table, p: Program) {
    forall f :: f in funcs && funcs[f].Some? ==>
      FindFunction(p, f).Some? && p[FindFunction(p, f).value].ty == funcs[f].value != UNDEFINED
  }

  lemma {:induction false} PrintableIsTyped(k: FloatReader, p: Program, scope: Table, funcs: Table, names: Names, e: Expr)
    requires PrintableExpr(k, scope, funcs, e) && Within(scope, names) && KnownTo(funcs, p)
    ensures TypedExpr(p, names, e) && e.Type() != UNDEFINED
    decreases e
  {
    match e
    case Unary(_, a) => PrintableIsTyped(k, p, scope, funcs, names, a);
    case Binary(_, _, a, b) =>
      PrintableIsTyped(k, p, scope, funcs, names, a);
      PrintableIsTyped(k, p, scope, funcs, names, b);
    case Call(_, args, _) => ArgsAreTyped(k, p, scope, funcs, names, args);
    case _ =>
  }

  lemma {:induction false} ArgsAreTyped(k: FloatReader, p: Program, scope: Table, funcs: Table, names: Names, es: seq<Expr>)
    requires PrintableArgs(k, scope, funcs, es) && Within(scope, names) && KnownTo(funcs, p)
    ensures forall i :: 0 <= i < |es| ==> TypedExpr(p, names, es[i])
    decreases es
  {
    if es != [] {
      PrintableIsTyped(k, p, scope, funcs, names, es[0]);
      ArgsAreTyped(k, p, scope, funcs, names, es[1..]);
      forall i | 0 <= i < |es| ensures TypedExpr(p, names, es[i]) {
        if i > 0 {
          assert es[1..][i - 1] == es[i];
        }
      }
    }
  }

  // ----- scopes only grow -----

  ghost predicate Grown(a: Table, b: Table) {
    forall x :: x in a ==> x in b && b[x] == a[x]
  }

  lemma {:induction false} ScopeGrows(scope: Table, s: Stmt)
    ensures Grown(scope, ScopeOf(scope, s))
    decreases s
  {
    match s
    case Block(ss) => ScopeSeqGrows(scope, ss);
    case If(_, a, b) =>
      ScopeGrows(scope, a);
      if b.Some? {
        ScopeGrows(ScopeOf(scope, a), b.value);
      }
    case While(_, a) => ScopeGrows(scope, a);
    case DoWhile(a, _) => ScopeGrows(scope, a);
    case _ =>
  }

  lemma {:induction false} ScopeSeqGrows(scope: Table, ss: seq<Stmt>)
    ensures Grown(scope, ScopeOfSeq(scope, ss))
    decreases ss
  {
    if ss != [] {
      ScopeGrows(scope, ss[0]);
      ScopeSeqGrows(ScopeOf(scope, ss[0]), ss[1..]);
    }
  }

  lemma GrownWithin(a: Table, b: Table, names: Names)
    requires Grown(a, b) && Within(b, names)
    ensures Within(a, names)
  {
  }

  lemma {:induction false} PrintableStmtIsTyped(k: FloatReader, p: Program, scope: Table, funcs: Table, names: Names, s: Stmt)
    requires PrintableStmt(k, scope, funcs, s) && Within(ScopeOf(scope, s), names) && KnownTo(funcs, p)
    ensures TypedStmt(p, names, s)
    decreases s
  {
    hide Within, KnownTo;
    ScopeGrows(scope, s);
    GrownWithin(scope, ScopeOf(scope, s), names);
    match s
    case Assign(x, t, e) =>
      PrintableIsTyped(k, p, scope, funcs, names, e);
      NameWithin(ScopeOf(scope, s), names, x);
    case Print(e) => PrintableIsTyped(k, p, scope, funcs, names, e);
    case Return(e) => PrintableIsTyped(k, p, scope, funcs, names, e);
    case CallStmt(e) => PrintableIsTyped(k, p, scope, funcs, names, e);
    case Block(ss) => PrintableSeqIsTyped(k, p, scope, funcs, names, ss);
    case If(c, a, b) =>
      PrintableIsTyped(k, p, scope, funcs, names, c);
      if b.Some? {
        ScopeGrows(ScopeOf(scope, a), b.value);
        GrownWithin(ScopeOf(scope, a), ScopeOf(scope, s), names);
        PrintableStmtIsTyped(k, p, ScopeOf(scope, a), funcs, names, b.value);
      }
      PrintableStmtIsTyped(k, p, scope, funcs, names, a);
    case While(c, a) =>
      PrintableIsTyped(k, p, scope, funcs, names, c);
      PrintableStmtIsTyped(k, p, scope, funcs, names, a);
    case DoWhile(a, c) =>
      PrintableStmtIsTyped(k, p, scope, funcs, names, a);
      PrintableIsTyped(k, p, ScopeOf(scope, a), funcs, names, c);
  }

  lemma NameWithin(a: Table, names: Names, x: string)
    requires Within(a, names) && x in a && a[x].Some?
    ensures x in names && names[x] == a[x].value != UNDEFINED
  {
  }

  lemma {:induction false} PrintableSeqIsTyped(k: FloatReader, p: Program, scope: Table, funcs: Table, names: Names, ss: seq<Stmt>)
    requires PrintableSeq(k, scope, funcs, ss) && Within(ScopeOfSeq(scope, ss), names) && KnownTo(funcs, p)
    ensures forall i :: 0 <= i < |ss| ==> TypedStmt(p, names, ss[i])
    decreases ss
  {
    hide Within, KnownTo;
    if ss != [] {
      ScopeSeqGrows(ScopeOf(scope, ss[0]), ss[1..]);
      GrownWithin(ScopeOf(scope, ss[0]), ScopeOfSeq(scope, ss), names);
      PrintableStmtIsTyped(k, p, scope, funcs, names, ss[0]);
      PrintableSeqIsTyped(k, p, ScopeOf(scope, ss[0]), funcs, names, ss[1..]);
      forall i | 0 <= i < |ss| ensures TypedStmt(p, names, ss[i]) {
        if i > 0 {
          assert ss[1..][i - 1] == ss[i];
        }
      }
    }
  }

  // ----- functions and files -----

  /** The names of a function, from the table its parsing leaves. */
  function NamesOf(scope: Table): Names {
    map x | x in scope && scope[x].Some? && scope[x].value != UNDEFINED :: scope[x].value
  }

  predicate Defined(scope: Table) {
    forall x :: x in scope ==> scope[x].Some? && scope[x].value != UNDEFINED
  }

  lemma {:induction false} ScopeStaysDefined(k: FloatReader, scope: Table, funcs: Table, s: Stmt)
    requires PrintableStmt(k, scope, funcs, s) && Defined(scope)
    ensures Defined(ScopeOf(scope, s))
    decreases s
  {
    match s
    case Block(ss) => SeqStaysDefined(k, scope, funcs, ss);
    case If(_, a, b) =>
      ScopeStaysDefined(k, scope, funcs, a);
      if b.Some? {
        ScopeStaysDefined(k, ScopeOf(scope, a), funcs, b.value);
      }
    case While(_, a) => ScopeStaysDefined(k, scope, funcs, a);
    case DoWhile(a, _) => ScopeStaysDefined(k, scope, funcs, a);
    case _ =>
  }

  lemma {:induction false} SeqStaysDefined(k: FloatReader, scope: Table, funcs: Table, ss: seq<Stmt>)
    requires PrintableSeq(k, scope, funcs, ss) && Defined(scope)
    ensures Defined(ScopeOfSeq(scope, ss))
    decreases ss
  {
    if ss != [] {
      ScopeStaysDefined(k, scope, funcs, ss[0]);
      SeqStaysDefined(k, ScopeOf(scope, ss[0]), funcs, ss[1..]);
    }
  }

  /** Where first and last parameters agree, the table has the types of the cells. */
  lemma ParamScopeTyped(ps: seq<Param>)
    requires ProperParams(ps) && EndsAgree(ps)
    ensures Defined(ParamScope(ps)) && Includes(NamesOf(ParamScope(ps)), LastTypes(ps))
  {
    hide ParamScope, LastTypes, EndsAgree;
    ParserTakesLastExactlyWhen(ps);
    forall x | x in ParamScope(ps) ensures ParamScope(ps)[x].Some? && ParamScope(ps)[x].value != UNDEFINED {
      var i := FirstCounts(ps, x);
    }
    forall x | x in LastTypes(ps) ensures x in NamesOf(ParamScope(ps)) && NamesOf(ParamScope(ps))[x] == LastTypes(ps)[x] {
      var i := LastCounts(ps, x);
      Scoped(ps, i);
    }
  }

  lemma NamesGrown(a: Table, b: Table, some: Names)
    requires Grown(a, b) && Includes(NamesOf(a), some)
    ensures Includes(NamesOf(b), some)
  {
  }

  lemma FunctionIsTyped(k: FloatReader, p: Program, funcs: Table, d: FunctionDef)
    requires PrintableFunction(k, funcs, d) && EndsAgree(d.params) && KnownTo(Insert(funcs, d.name, d.ty), p)
    ensures Typable(p, d)
  {
    var funcs1, scope := Insert(funcs, d.name, d.ty), ParamScope(d.params);
    ParamScopeTyped(d.params);
    ScopeStaysDefined(k, scope, funcs1, d.body);
    ScopeGrows(scope, d.body);
    NamesGrown(scope, ScopeOf(scope, d.body), LastTypes(d.params));
    var names := NamesOf(ScopeOf(scope, d.body));
    PrintableStmtIsTyped(k, p, scope, funcs1, names, d.body);
    assert TypedBody(p, names, d);
  }

  /** The functions of a prefix are known with their types. */
  lemma KnownInsert(p: Program, funcs: Table, i: nat)
    requires DistinctNames(p) && i < |p| && KnownTo(funcs, p) && p[i].ty != UNDEFINED
    ensures KnownTo(Insert(funcs, p[i].name, p[i].ty), p)
  {
    FoundFunction(p, p[i].name, i);
  }

  lemma {:induction false} FileIsTyped(k: FloatReader, p: Program, funcs: Table, i: nat)
    requires i <= |p| && PrintableFile(k, funcs, p[i..]) && KnownTo(funcs, p)
    requires DistinctNames(p) && forall j :: 0 <= j < |p| ==> EndsAgree(p[j].params)
    ensures forall j :: i <= j < |p| ==> Typable(p, p[j])
    decreases |p| - i
  {
    hide KnownTo, Typable, DistinctNames, EndsAgree, PrintableFunction;
    if i < |p| {
      assert p[i..][0] == p[i] && p[i..][1..] == p[i + 1..];
      PrintableHasType(k, funcs, p[i]);
      KnownInsert(p, funcs, i);
      FunctionIsTyped(k, p, funcs, p[i]);
      FileIsTyped(k, p, Insert(funcs, p[i].name, p[i].ty), i + 1);
    }
  }

  lemma PrintableHasType(k: FloatReader, funcs: Table, d: FunctionDef)
    requires PrintableFunction(k, funcs, d)
    ensures d.ty != UNDEFINED
  {
  }

  lemma NothingKnown(p: Program)
    ensures KnownTo(map[], p)
  {
  }

  /** What the parser returns without an error is well typed, provided that function names are
      distinct and the first and the last parameter of one name have one type. */
  lemma ParsedIsTyped(k: FloatReader, tokens: seq<T.Tok>, p: Program)
    requires T.AllLexed(tokens) && Parse(k, tokens).root == Vector(p) && !Parse(k, tokens).s.isError
    requires DistinctNames(p) && forall j :: 0 <= j < |p| ==> EndsAgree(p[j].params)
    ensures TypedProgram(p)
  {
    Image.ParsedIsPrintable(k, tokens, p);
    hide Parse, DistinctNames, EndsAgree, PrintableFile, Typable;
    assert p[0..] == p;
    NothingKnown(p);
    FileIsTyped(k, p, map[], 0);
  }

  /** What is asked of a source file for the theorem below: the scanner and the parser turn it into
      `p` without an error, functions have distinct names and parameters of one name agree, every name
      is used inside the block it is declared in and declared on every path to its uses, calls have
      the right number of arguments and are no statements, and no bool is compared with an int. */
  ghost predicate Accepted(k: FloatReader, text: string, p: Program) {
    && Parse(k, TokensOf(text)).root == Vector(p) && !Parse(k, TokensOf(text)).s.isError
    && (forall j :: 0 <= j < |p| ==> EndsAgree(p[j].params)) && Compilable(p) && UnmixedProgram(p)
  }

  /** The emitted code is well typed, and the program is one the theorems about runs speak of. */
  lemma AcceptedIsTyped(k: FloatReader, text: string, p: Program, i: nat)
    requires Accepted(k, text, p) && i < |p|
    ensures TypedProgram(p) && TypedCode(LowerProgram(p).code) && i < |LowerProgram(p).code.fns|
  {
    hide LowerProgram, TypedProgram, UnmixedProgram, Parse, TokensOf;
    TokensAreLexed(text);
    ParsedIsTyped(k, TokensOf(text), p);
    CompilableLowers(p);
    TypesArePreservedExactlyWhen(p);
    AllFunctionsKnown(p, i);
  }

  /** The whole compiler: for a text that is accepted the emitted code is well typed, and run on any
      function with arguments of the declared types it does what the program means, for as long as
      the program runs; at no step does it fault but by dividing by zero. */
  lemma CompilerIsCorrect(k: FloatReader, text: string, p: Program, ops: FloatOps, i: nat, vs: seq<Val>, fuel: nat)
    returns (n: nat)
    requires Accepted(k, text, p) && i < |p| && ArgsTyped(vs, p[i].params)
    ensures TypedCode(LowerProgram(p).code) && i < |LowerProgram(p).code.fns|
    ensures var r, t := Meaning(p, ops, i, vs, fuel), After(p, ops, i, vs, n);
      && t.status == StatusOf(r) && t.out == r.out && (r == Source.Halted(Source.Timeout, r.out) ==> n + 1 >= fuel)
      && (r.Halted? ==> r.why.Timeout? || r.why.FellOff? || r.why.DivByZero?)
      && (r.Value? ==> Source.HasType(r.v, p[i].ty))
    ensures forall m: nat :: var t := After(p, ops, i, vs, m); t.status.Faulted? ==> t.status.f == Ir.DivisionByZero
  {
    hide LowerProgram, TypedProgram, UnmixedProgram, Parse, TokensOf, Meaning, TypedCode;
    AcceptedIsTyped(k, text, p, i);
    n := MachineFollowsInterpreter(p, ops, i, vs, fuel);
    ProgramSound(p, ops, i, vs, fuel);
    forall m: nat ensures var t := After(p, ops, i, vs, m); t.status.Faulted? ==> t.status.f == Ir.DivisionByZero {
      WellTypedCodeFaultsOnlyOnDivision(p, ops, i, vs, m);
    }
  }

  /** The converse: however a run of the emitted code stops, the program stops so. */
  lemma CompiledStopsAreExplained(k: FloatReader, text: string, p: Program, ops: FloatOps, i: nat, vs: seq<Val>, n: nat)
    requires Accepted(k, text, p) && i < |p| && ArgsTyped(vs, p[i].params)
    ensures i < |LowerProgram(p).code.fns|
    ensures var r, t := Meaning(p, ops, i, vs, n + 2), After(p, ops, i, vs, n);
      !t.status.Running? ==>
        && t.status == StatusOf(r) && t.out == r.out
        && if r.Value? then Source.HasType(r.v, p[i].ty) else r.why.FellOff? || r.why.DivByZero?
  {
    hide LowerProgram, TypedProgram, UnmixedProgram, Parse, TokensOf, Meaning;
    AcceptedIsTyped(k, text, p, i);
    if !After(p, ops, i, vs, n).status.Running? {
      EveryStopIsExplained(p, ops, i, vs, n);
      ProgramSound(p, ops, i, vs, n + 2);
    }
  }
}
