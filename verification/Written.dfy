/** The parser accepts exactly the programs that keep the type rules and can be written down.

    What can be written down is said without types: names are words, literals exist for the values,
    every name is declared before it is used, in one flat scope per function, and no `else` would
    be taken by another `if`. */
module Written {
  import opened Wrappers
  import opened Ast
  import opened Parsing
  import opened Printing
  import opened Scoping
  import opened Typing
  import opened Duplicates
  import opened Calls
  import Image
  import opened EndToEnd
  import T = Tokens

  // ----- what can be written -----

  ghost predicate Spelled(k: FloatReader, declared: set<string>, known: set<string>, e: Expr)
    decreases e
  {
    match e
    case Var(x, _) => Identifier(x) && x in declared
    case BoolLit(_) => true
    case IntLit(n) => 0 <= n
    case FloatLit(f) => exists l :: FloatLexeme(l) && k(l) == Some(f)
    case Unary(_, a) => Spelled(k, declared, known, a)
    case Binary(_, _, a, b) => Spelled(k, declared, known, a) && Spelled(k, declared, known, b)
    case Call(f, args, _) => Identifier(f) && f in known && forall i :: 0 <= i < |args| ==> Spelled(k, declared, known, args[i])
  }

  /** All names a statement assigns to, in whatever block. */
  function AssignedIn(s: Stmt): set<string>
    decreases s
  {
    match s
    case Assign(x, _, _) => {x}
    case Block(ss) => AssignedInAll(ss)
    case If(_, a, b) => AssignedIn(a) + if b.Some? then AssignedIn(b.value) else {}
    case While(_, a) => AssignedIn(a)
    case DoWhile(a, _) => AssignedIn(a)
    case _ => {}
  }

  function AssignedInAll(ss: seq<Stmt>): set<string>
    decreases ss
  {
    if ss == [] then {} else AssignedIn(ss[0]) + AssignedInAll(ss[1..])
  }

  ghost predicate SpelledStmt(k: FloatReader, declared: set<string>, known: set<string>, s: Stmt)
    decreases s
  {
    match s
    case Assign(x, _, e) => Identifier(x) && Spelled(k, declared, known, e)
    case Print(e) => Spelled(k, declared, known, e)
    case Return(e) => Spelled(k, declared, known, e)
    case CallStmt(e) => e.Call? && Spelled(k, declared, known, e)
    case Block(ss) => SpelledAll(k, declared, known, ss)
    case If(c, a, b) =>
      && Spelled(k, declared, known, c) && SpelledStmt(k, declared, known, a)
      && (b.Some? ==> SpelledStmt(k, declared + AssignedIn(a), known, b.value) && !EndsInIf(a))
    case While(c, a) => Spelled(k, declared, known, c) && SpelledStmt(k, declared, known, a)
    case DoWhile(a, c) => SpelledStmt(k, declared, known, a) && Spelled(k, declared + AssignedIn(a), known, c)
  }

  ghost predicate SpelledAll(k: FloatReader, declared: set<string>, known: set<string>, ss: seq<Stmt>)
    decreases ss
  {
    ss == [] || (SpelledStmt(k, declared, known, ss[0]) && SpelledAll(k, declared + AssignedIn(ss[0]), known, ss[1..]))
  }

  /** The names of the functions up to this one. */
  function NamesUpTo(p: Program, n: nat): set<string>
    requires n <= |p|
  {
    set i | 0 <= i < n :: p[i].name
  }

  ghost predicate SpelledFunction(k: FloatReader, p: Program, i: nat)
    requires i < |p|
  {
    var d := p[i];
    && Identifier(d.name) && (forall j :: 0 <= j < |d.params| ==> Identifier(d.params[j].name))
    && SpelledStmt(k, ParamNames(d.params), NamesUpTo(p, i + 1), d.body)
  }

  ghost predicate SpelledProgram(k: FloatReader, p: Program) {
    forall i :: 0 <= i < |p| ==> SpelledFunction(k, p, i)
  }

  // ----- expressions -----

  /** The table has these names, with these types. */
  ghost predicate Holds(t: Table, names: Names, domain: set<string>) {
    && t.Keys == domain
    && forall x :: x in t ==> t[x].Some? && x in names && names[x] == t[x].value != UNDEFINED
  }

  /** The table has these functions, with the types the program gives them. */
  ghost predicate HoldsFunctions(t: Table, p: Program, known: set<string>) {
    && t.Keys == known
    && forall f :: f in t ==>
         t[f].Some? && FindFunction(p, f).Some? && p[FindFunction(p, f).value].ty == t[f].value != UNDEFINED
  }

  /** The parser's checks on an expression are the type rules. */
  lemma {:induction false} PrintableExactlyWhenTyped(k: FloatReader, p: Program, scope: Table, funcs: Table, names: Names,
                                                     declared: set<string>, known: set<string>, e: Expr)
    requires Holds(scope, names, declared) && HoldsFunctions(funcs, p, known)
    ensures PrintableExpr(k, scope, funcs, e) <==> TypedExpr(p, names, e) && Spelled(k, declared, known, e)
    ensures TypedExpr(p, names, e) ==> e.Type() != UNDEFINED
    decreases e
  {
    hide PrintableExpr, TypedExpr, Spelled;
    match e
    case Unary(_, a) =>
      PrintableExactlyWhenTyped(k, p, scope, funcs, names, declared, known, a);
      OperatorRules(k, p, scope, funcs, names, declared, known, e);
    case Binary(_, _, a, b) =>
      PrintableExactlyWhenTyped(k, p, scope, funcs, names, declared, known, a);
      PrintableExactlyWhenTyped(k, p, scope, funcs, names, declared, known, b);
      OperatorRules(k, p, scope, funcs, names, declared, known, e);
    case Call(_, args, _) =>
      ArgsExactlyWhenTyped(k, p, scope, funcs, names, declared, known, args);
      LeafRules(k, p, scope, funcs, names, declared, known, e);
    case _ => LeafRules(k, p, scope, funcs, names, declared, known, e);
  }

  lemma OperatorRules(k: FloatReader, p: Program, scope: Table, funcs: Table, names: Names,
                      declared: set<string>, known: set<string>, e: Expr)
    requires e.Unary? ==> TypedExpr(p, names, e.sub) ==> e.sub.Type() != UNDEFINED
    requires e.Unary? ==> (PrintableExpr(k, scope, funcs, e.sub) <==> TypedExpr(p, names, e.sub) && Spelled(k, declared, known, e.sub))
    requires e.Binary? ==> TypedExpr(p, names, e.lhs) && TypedExpr(p, names, e.rhs) ==> e.lhs.Type() != UNDEFINED && e.rhs.Type() != UNDEFINED
    requires e.Binary? ==> (PrintableExpr(k, scope, funcs, e.lhs) <==> TypedExpr(p, names, e.lhs) && Spelled(k, declared, known, e.lhs))
    requires e.Binary? ==> (PrintableExpr(k, scope, funcs, e.rhs) <==> TypedExpr(p, names, e.rhs) && Spelled(k, declared, known, e.rhs))
    ensures e.Unary? || e.Binary? ==>
      && (PrintableExpr(k, scope, funcs, e) <==> TypedExpr(p, names, e) && Spelled(k, declared, known, e))
      && (TypedExpr(p, names, e) ==> e.Type() != UNDEFINED)
  {
  }

  lemma LeafRules(k: FloatReader, p: Program, scope: Table, funcs: Table, names: Names,
                  declared: set<string>, known: set<string>, e: Expr)
    requires Holds(scope, names, declared) && HoldsFunctions(funcs, p, known) && !e.Unary? && !e.Binary?
    requires e.Call? ==> (PrintableArgs(k, scope, funcs, e.args) <==>
      forall i :: 0 <= i < |e.args| ==> TypedExpr(p, names, e.args[i]) && Spelled(k, declared, known, e.args[i]))
    ensures PrintableExpr(k, scope, funcs, e) <==> TypedExpr(p, names, e) && Spelled(k, declared, known, e)
    ensures TypedExpr(p, names, e) ==> e.Type() != UNDEFINED
  {
  }

  lemma {:induction false} ArgsExactlyWhenTyped(k: FloatReader, p: Program, scope: Table, funcs: Table, names: Names,
                                                declared: set<string>, known: set<string>, es: seq<Expr>)
    requires Holds(scope, names, declared) && HoldsFunctions(funcs, p, known)
    ensures PrintableArgs(k, scope, funcs, es) <==>
      forall i :: 0 <= i < |es| ==> TypedExpr(p, names, es[i]) && Spelled(k, declared, known, es[i])
    decreases es
  {
    hide Holds, HoldsFunctions, PrintableExpr, TypedExpr, Spelled;
    if es != [] {
      PrintableExactlyWhenTyped(k, p, scope, funcs, names, declared, known, es[0]);
      ArgsExactlyWhenTyped(k, p, scope, funcs, names, declared, known, es[1..]);
      forall i | 0 <= i < |es| - 1 ensures es[1..][i] == es[i + 1] {
      }
      assert forall i :: 0 < i < |es| ==> es[i] == es[1..][i - 1];
    }
  }

  // ----- statements -----

  lemma {:induction false} ScopeHolds(scope: Table, p: Program, names: Names, declared: set<string>, s: Stmt)
    requires Holds(scope, names, declared) && TypedStmt(p, names, s)
    ensures Holds(ScopeOf(scope, s), names, declared + AssignedIn(s))
    decreases s
  {
    match s
    case Block(ss) => ScopeHoldsAll(scope, p, names, declared, ss);
    case If(_, a, b) =>
      ScopeHolds(scope, p, names, declared, a);
      if b.Some? {
        ScopeHolds(ScopeOf(scope, a), p, names, declared + AssignedIn(a), b.value);
        assert declared + AssignedIn(a) + AssignedIn(b.value) == declared + AssignedIn(s);
      }
    case While(_, a) => ScopeHolds(scope, p, names, declared, a);
    case DoWhile(a, _) => ScopeHolds(scope, p, names, declared, a);
    case _ => assert s.Assign? || declared + AssignedIn(s) == declared;
  }

  lemma {:induction false} ScopeHoldsAll(scope: Table, p: Program, names: Names, declared: set<string>, ss: seq<Stmt>)
    requires Holds(scope, names, declared) && forall i :: 0 <= i < |ss| ==> TypedStmt(p, names, ss[i])
    ensures Holds(ScopeOfSeq(scope, ss), names, declared + AssignedInAll(ss))
    decreases ss
  {
    if ss == [] {
      assert declared + AssignedInAll(ss) == declared;
    } else {
      ScopeHolds(scope, p, names, declared, ss[0]);
      ScopeHoldsAll(ScopeOf(scope, ss[0]), p, names, declared + AssignedIn(ss[0]), ss[1..]);
      assert declared + AssignedIn(ss[0]) + AssignedInAll(ss[1..]) == declared + AssignedInAll(ss);
    }
  }

  /** Whatever is typed and can be written, the parser's checks let pass. */
  lemma {:induction false} TypedStmtIsPrintable(k: FloatReader, p: Program, scope: Table, funcs: Table, names: Names,
                                                declared: set<string>, known: set<string>, s: Stmt)
    requires Holds(scope, names, declared) && HoldsFunctions(funcs, p, known)
    requires TypedStmt(p, names, s) && SpelledStmt(k, declared, known, s)
    ensures PrintableStmt(k, scope, funcs, s)
    decreases s
  {
    hide HoldsFunctions, PrintableExpr, TypedExpr, Spelled;
    match s
    case Assign(_, _, e) => PrintableExactlyWhenTyped(k, p, scope, funcs, names, declared, known, e);
    case Print(e) => PrintableExactlyWhenTyped(k, p, scope, funcs, names, declared, known, e);
    case Return(e) => PrintableExactlyWhenTyped(k, p, scope, funcs, names, declared, known, e);
    case CallStmt(e) => PrintableExactlyWhenTyped(k, p, scope, funcs, names, declared, known, e);
    case Block(ss) => TypedSeqIsPrintable(k, p, scope, funcs, names, declared, known, ss);
    case If(c, a, b) =>
      PrintableExactlyWhenTyped(k, p, scope, funcs, names, declared, known, c);
      TypedStmtIsPrintable(k, p, scope, funcs, names, declared, known, a);
      if b.Some? {
        ScopeHolds(scope, p, names, declared, a);
        TypedStmtIsPrintable(k, p, ScopeOf(scope, a), funcs, names, declared + AssignedIn(a), known, b.value);
      }
    case While(c, a) =>
      PrintableExactlyWhenTyped(k, p, scope, funcs, names, declared, known, c);
      TypedStmtIsPrintable(k, p, scope, funcs, names, declared, known, a);
    case DoWhile(a, c) =>
      TypedStmtIsPrintable(k, p, scope, funcs, names, declared, known, a);
      ScopeHolds(scope, p, names, declared, a);
      PrintableExactlyWhenTyped(k, p, ScopeOf(scope, a), funcs, names, declared + AssignedIn(a), known, c);
  }

  lemma {:induction false} TypedSeqIsPrintable(k: FloatReader, p: Program, scope: Table, funcs: Table, names: Names,
                                               declared: set<string>, known: set<string>, ss: seq<Stmt>)
    requires Holds(scope, names, declared) && HoldsFunctions(funcs, p, known)
    requires (forall i :: 0 <= i < |ss| ==> TypedStmt(p, names, ss[i])) && SpelledAll(k, declared, known, ss)
    ensures PrintableSeq(k, scope, funcs, ss)
    decreases ss
  {
    hide Holds, HoldsFunctions, TypedStmt, SpelledStmt, PrintableStmt;
    if ss != [] {
      TypedStmtIsPrintable(k, p, scope, funcs, names, declared, known, ss[0]);
      ScopeHolds(scope, p, names, declared, ss[0]);
      TypedSeqIsPrintable(k, p, ScopeOf(scope, ss[0]), funcs, names, declared + AssignedIn(ss[0]), known, ss[1..]);
    }
  }

  /** The converse: what passes the parser's checks can be written. */
  lemma {:induction false} PrintableStmtIsSpelled(k: FloatReader, scope: Table, funcs: Table, s: Stmt)
    requires PrintableStmt(k, scope, funcs, s)
    ensures SpelledStmt(k, scope.Keys, funcs.Keys, s) && ScopeOf(scope, s).Keys == scope.Keys + AssignedIn(s)
    decreases s
  {
    match s
    case Assign(_, _, e) => PrintableIsSpelled(k, scope, funcs, e);
    case Print(e) => PrintableIsSpelled(k, scope, funcs, e);
    case Return(e) => PrintableIsSpelled(k, scope, funcs, e);
    case CallStmt(e) => PrintableIsSpelled(k, scope, funcs, e);
    case Block(ss) => PrintableSeqIsSpelled(k, scope, funcs, ss);
    case If(c, a, b) =>
      PrintableIsSpelled(k, scope, funcs, c);
      PrintableStmtIsSpelled(k, scope, funcs, a);
      if b.Some? {
        PrintableStmtIsSpelled(k, ScopeOf(scope, a), funcs, b.value);
      }
    case While(c, a) =>
      PrintableIsSpelled(k, scope, funcs, c);
      PrintableStmtIsSpelled(k, scope, funcs, a);
    case DoWhile(a, c) =>
      PrintableStmtIsSpelled(k, scope, funcs, a);
      PrintableIsSpelled(k, ScopeOf(scope, a), funcs, c);
  }

  lemma {:induction false} PrintableSeqIsSpelled(k: FloatReader, scope: Table, funcs: Table, ss: seq<Stmt>)
    requires PrintableSeq(k, scope, funcs, ss)
    ensures SpelledAll(k, scope.Keys, funcs.Keys, ss) && ScopeOfSeq(scope, ss).Keys == scope.Keys + AssignedInAll(ss)
    decreases ss
  {
    hide PrintableStmt, SpelledStmt;
    if ss != [] {
      PrintableStmtIsSpelled(k, scope, funcs, ss[0]);
      PrintableSeqIsSpelled(k, ScopeOf(scope, ss[0]), funcs, ss[1..]);
    }
  }

  lemma {:induction false} PrintableIsSpelled(k: FloatReader, scope: Table, funcs: Table, e: Expr)
    requires PrintableExpr(k, scope, funcs, e)
    ensures Spelled(k, scope.Keys, funcs.Keys, e)
    decreases e
  {
    match e
    case Unary(_, a) => PrintableIsSpelled(k, scope, funcs, a);
    case Binary(_, _, a, b) =>
      PrintableIsSpelled(k, scope, funcs, a);
      PrintableIsSpelled(k, scope, funcs, b);
    case Call(_, args, _) => PrintableArgsAreSpelled(k, scope, funcs, args);
    case _ =>
  }

  lemma {:induction false} PrintableArgsAreSpelled(k: FloatReader, scope: Table, funcs: Table, es: seq<Expr>)
    requires PrintableArgs(k, scope, funcs, es)
    ensures forall i :: 0 <= i < |es| ==> Spelled(k, scope.Keys, funcs.Keys, es[i])
    decreases es
  {
    if es != [] {
      PrintableIsSpelled(k, scope, funcs, es[0]);
      PrintableArgsAreSpelled(k, scope, funcs, es[1..]);
      assert forall i :: 0 < i < |es| ==> es[i] == es[1..][i - 1];
    }
  }

  // ----- functions and programs -----

  lemma {:induction false} FunctionTableHolds(p: Program, i: nat)
    requires DistinctNames(p) && i <= |p| && forall j :: 0 <= j < i ==> p[j].ty != UNDEFINED
    ensures HoldsFunctions(FuncTable(p[..i]), p, NamesUpTo(p, i))
    decreases i
  {
    FuncTableKeys(p, i);
    if i > 0 {
      FunctionTableHolds(p, i - 1);
      assert p[..i][..i - 1] == p[..i - 1];
      FoundFunction(p, p[i - 1].name, i - 1);
    }
  }

  lemma {:induction false} FuncTableKeys(p: Program, i: nat)
    requires i <= |p|
    ensures FuncTable(p[..i]).Keys == NamesUpTo(p, i)
    decreases i
  {
    if i > 0 {
      FuncTableKeys(p, i - 1);
      assert p[..i][..i - 1] == p[..i - 1];
      assert NamesUpTo(p, i) == NamesUpTo(p, i - 1) + {p[i - 1].name};
    }
  }

  lemma {:induction false} ParamScopeKeys(ps: seq<Param>)
    ensures ParamScope(ps).Keys == ParamNames(ps)
    decreases ps
  {
    if ps != [] {
      var n := |ps| - 1;
      ParamScopeKeys(ps[..n]);
      assert ParamNames(ps) == ParamNames(ps[..n]) + {ps[n].name};
    }
  }

  /** The names a body starts with have the types of the last parameters so named. */
  lemma ParamsHold(ps: seq<Param>, names: Names)
    requires ProperParams(ps) && EndsAgree(ps) && Includes(names, LastTypes(ps))
    ensures Holds(ParamScope(ps), names, ParamNames(ps))
  {
    hide ParamScope, LastTypes, EndsAgree;
    ParamScopeKeys(ps);
    ParamScopeTyped(ps);
    forall x | x in ParamScope(ps)
      ensures ParamScope(ps)[x].Some? && x in names && names[x] == ParamScope(ps)[x].value != UNDEFINED
    {
      var i := FirstCounts(ps, x);
      Scoped(ps, i);
    }
  }

  lemma NextTable(p: Program, i: nat)
    requires i < |p|
    ensures FuncTable(p[..i + 1]) == Insert(FuncTable(p[..i]), p[i].name, p[i].ty)
  {
    assert p[..i + 1][..i] == p[..i];
  }

  lemma TypedFunctionIsPrintable(k: FloatReader, p: Program, i: nat)
    requires DistinctNames(p) && i < |p| && EndsAgree(p[i].params) && TypedProgram(p) && SpelledFunction(k, p, i)
    ensures PrintableFunction(k, FuncTable(p[..i]), p[i])
  {
    hide FuncTable, ParamScope, HoldsFunctions, Holds, SpelledStmt, PrintableStmt, TypedStmt, EndsAgree, DistinctNames;
    var d := p[i];
    assert Typable(p, d) && forall j :: 0 <= j < |p| ==> Typable(p, p[j]);
    var names :| TypedBody(p, names, d);
    ParamsHold(d.params, names);
    NextTable(p, i);
    FunctionTableHolds(p, i + 1);
    TypedStmtIsPrintable(k, p, ParamScope(d.params), FuncTable(p[..i + 1]), names, ParamNames(d.params), NamesUpTo(p, i + 1), d.body);
  }

  lemma PrintableFunctionIsSpelled(k: FloatReader, p: Program, i: nat)
    requires i < |p| && PrintableFunction(k, FuncTable(p[..i]), p[i])
    ensures SpelledFunction(k, p, i)
  {
    hide FuncTable, ParamScope, SpelledStmt, PrintableStmt;
    NextTable(p, i);
    FuncTableKeys(p, i + 1);
    ParamScopeKeys(p[i].params);
    PrintableStmtIsSpelled(k, ParamScope(p[i].params), FuncTable(p[..i + 1]), p[i].body);
  }

  lemma {:induction false} FileFromFunctions(k: FloatReader, p: Program, i: nat)
    requires i <= |p| && forall j :: i <= j < |p| ==> PrintableFunction(k, FuncTable(p[..j]), p[j])
    ensures PrintableFile(k, FuncTable(p[..i]), p[i..])
    decreases |p| - i
  {
    hide PrintableFunction;
    if i < |p| {
      FileFromFunctions(k, p, i + 1);
      NextTable(p, i);
      assert p[i..][1..] == p[i + 1..];
    }
  }

  /** The programs the parser can return without an error are exactly those that keep the type rules
      and can be written down, provided that names are distinct where the two could differ. */
  lemma AcceptedExactlyWhenTyped(k: FloatReader, p: Program)
    requires DistinctNames(p) && forall j :: 0 <= j < |p| ==> EndsAgree(p[j].params)
    ensures (exists tokens ::
              T.AllLexed(tokens) && Parse(k, tokens).root == Vector(p) && !Parse(k, tokens).s.isError)
       <==> TypedProgram(p) && SpelledProgram(k, p)
  {
    hide Parse, PrintableFile, PrintableFunction, TypedProgram, SpelledFunction, DistinctNames, EndsAgree, FuncTable;
    Image.ParsedExactlyWhenPrintable(k, p);
    WholeFile(p);
    if PrintableFile(k, map[], p) {
      NothingKnown(p);
      PrintableFileIsTyped(k, p);
      forall i | 0 <= i < |p| ensures SpelledFunction(k, p, i) {
        ParsedWithTable(k, p, 0, i);
        PrintableFunctionIsSpelled(k, p, i);
      }
    }
    if TypedProgram(p) && SpelledProgram(k, p) {
      forall i | 0 <= i < |p| ensures PrintableFunction(k, FuncTable(p[..i]), p[i]) {
        TypedFunctionIsPrintable(k, p, i);
      }
      FileFromFunctions(k, p, 0);
    }
  }

  lemma WholeFile(p: Program)
    ensures p[0..] == p && FuncTable(p[..0]) == map[]
  {
  }

  lemma PrintableFileIsTyped(k: FloatReader, p: Program)
    requires PrintableFile(k, map[], p) && DistinctNames(p) && forall j :: 0 <= j < |p| ==> EndsAgree(p[j].params)
    ensures TypedProgram(p)
  {
    hide PrintableFile, DistinctNames, EndsAgree, Typable;
    WholeFile(p);
    NothingKnown(p);
    FileIsTyped(k, p, map[], 0);
  }
}
