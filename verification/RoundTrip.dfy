/** Printing and parsing are inverse. */
module RoundTrip {
  import opened Wrappers
  import opened Ast
  import opened Parsing
  import opened Grammar
  import opened CompleteFiles
  import opened Printing
  import T = Tokens

  lemma ProperConcat(a: seq<T.Tok>, b: seq<T.Tok>)
    requires T.AllProper(a) && T.AllProper(b)
    ensures T.AllProper(a + b)
  {
  }

  // ----- expressions -----

  /** All that is said of a derivation of `e` at a level. */
  ghost predicate Derives(k: FloatReader, scope: Table, funcs: Table, c: CExpr, e: Expr, level: nat) {
    && AtLevel(c, level) && NoneRedundant(c, level) && Neat(c) && !EndsOpen(c)
    && Denote(k, scope, funcs, c) == Some(e) && T.AllProper(Yield(c))
  }

  lemma {:induction false} DeriveLaw(k: FloatReader, scope: Table, funcs: Table, e: Expr, level: nat)
    requires PrintableExpr(k, scope, funcs, e) && level <= 7
    ensures Derives(k, scope, funcs, Derive(k, e, level), e, level)
    decreases e, 1
  {
    BareLaw(k, scope, funcs, e);
    BareLevels(DeriveBare(k, e), Tightness(e), level);
    if Tightness(e) < level {
      ParenLaw(k, scope, funcs, DeriveBare(k, e), e);
    }
  }

  lemma BareLevels(c: CExpr, tight: nat, level: nat)
    requires AtLevel(c, tight) && !c.CParen? && NoneRedundant(c, 0)
    requires if c.CBinary? then tight == c.level else if c.CUnary? then tight == 6 else tight == 7
    requires level <= 7
    ensures (AtLevel(c, level) <==> level <= tight) && AtLevel(c, 0) && NoneRedundant(c, level)
  {
  }

  lemma ParenLaw(k: FloatReader, scope: Table, funcs: Table, c: CExpr, e: Expr)
    requires Denote(k, scope, funcs, c) == Some(e) && T.AllProper(Yield(c))
    ensures Denote(k, scope, funcs, CParen(c)) == Some(e) && T.AllProper(Yield(CParen(c)))
  {
    hide Denote;
    assert Yield(CParen(c)) == [OPEN] + Yield(c) + [CLOSE];
    ParenDenotes(k, scope, funcs, c);
  }

  lemma ParenDenotes(k: FloatReader, scope: Table, funcs: Table, c: CExpr)
    ensures Denote(k, scope, funcs, CParen(c)) == Denote(k, scope, funcs, c)
  {
  }

  lemma {:induction false} BareLaw(k: FloatReader, scope: Table, funcs: Table, e: Expr)
    requires PrintableExpr(k, scope, funcs, e)
    ensures var c := DeriveBare(k, e);
      && !c.CParen? && Derives(k, scope, funcs, c, e, Tightness(e)) && NoneRedundant(c, 0)
      && (if c.CBinary? then Tightness(e) == c.level else if c.CUnary? then Tightness(e) == 6 else Tightness(e) == 7)
    decreases e, 0
  {
    match e
    case Var(_, _) => AtomLaw(k, scope, funcs, e);
    case BoolLit(_) => AtomLaw(k, scope, funcs, e);
    case IntLit(_) => AtomLaw(k, scope, funcs, e);
    case FloatLit(_) => AtomLaw(k, scope, funcs, e);
    case Unary(op, a) =>
      DeriveLaw(k, scope, funcs, a, 6);
      UnaryShown(op);
      UnaryLaw(k, scope, funcs, op, Derive(k, a, 6), a);
    case Binary(t, op, a, b) =>
      DeriveLaw(k, scope, funcs, a, LevelOf(op) + 1);
      DeriveLaw(k, scope, funcs, b, LevelOf(op));
      BinaryShown(op);
      BinaryLaw(k, scope, funcs, t, op, Derive(k, a, LevelOf(op) + 1), Derive(k, b, LevelOf(op)), a, b);
    case Call(f, args, t) =>
      ArgsLaw(k, scope, funcs, args);
      CallLaw(k, scope, funcs, f, DeriveArgs(k, args), args, t);
  }

  lemma AtomLaw(k: FloatReader, scope: Table, funcs: Table, e: Expr)
    requires PrintableExpr(k, scope, funcs, e) && (e.Var? || e.BoolLit? || e.IntLit? || e.FloatLit?)
    ensures var c := DeriveBare(k, e);
      !c.CParen? && !c.CBinary? && !c.CUnary? && Derives(k, scope, funcs, c, e, 7)
  {
    hide T.Proper, Identifier, FloatLexeme, ShowNat, DeriveArgs, Derive;
    AtomProper(k, scope, funcs, e);
    if e.IntLit? {
      ShowNatReads(e.n);
    }
  }

  lemma AtomProper(k: FloatReader, scope: Table, funcs: Table, e: Expr)
    requires PrintableExpr(k, scope, funcs, e)
    ensures e.Var? ==> T.Proper(T.Tok(T.SYMBOL, e.name))
    ensures e.BoolLit? ==> T.Proper(T.Tok(T.BOOL, if e.b then "True" else "False"))
    ensures e.IntLit? ==> T.Proper(T.Tok(T.INTEGER, ShowNat(e.n)))
    ensures e.FloatLit? ==> T.Proper(T.Tok(T.FLOAT, ShowFloat(k, e.f)))
  {
    if e.IntLit? {
      ShowNatReads(e.n);
    }
  }

  lemma UnaryLaw(k: FloatReader, scope: Table, funcs: Table, op: UnaryOp, c: CExpr, a: Expr)
    requires Derives(k, scope, funcs, c, a, 6) && UnaryFits(UnaryToken(op).ty, a.Type())
    ensures Derives(k, scope, funcs, CUnary(UnaryToken(op), c), Unary(op, a), 6)
  {
    UnaryShown(op);
    ProperConcat([UnaryToken(op)], Yield(c));
  }

  lemma BinaryLaw(k: FloatReader, scope: Table, funcs: Table, t: TType, op: BinaryOp, c: CExpr, d: CExpr, a: Expr, b: Expr)
    requires Derives(k, scope, funcs, c, a, LevelOf(op) + 1) && Derives(k, scope, funcs, d, b, LevelOf(op))
    requires OperandsFit(LevelOf(op), a.Type(), b.Type()) && t == BinaryType(LevelOf(op), a.Type(), b.Type())
    ensures Derives(k, scope, funcs, CBinary(LevelOf(op), ShowBinary(op), c, d), Binary(t, op, a, b), LevelOf(op))
  {
    BinaryShown(op);
    var o := [T.Tok(LevelToken(LevelOf(op)), ShowBinary(op))];
    ProperConcat(Yield(c), o);
    ProperConcat(Yield(c) + o, Yield(d));
  }

  ghost predicate DerivesArgs(k: FloatReader, scope: Table, funcs: Table, cs: seq<CExpr>, es: seq<Expr>) {
    && (forall i :: 0 <= i < |cs| ==> AtLevel(cs[i], 0) && NoneRedundant(cs[i], 0) && Neat(cs[i]) && !EndsOpen(cs[i]))
    && DenoteArgs(k, scope, funcs, cs) == Some(es) && T.AllProper(YieldArgs(cs))
  }

  lemma CallLaw(k: FloatReader, scope: Table, funcs: Table, f: string, cs: seq<CExpr>, args: seq<Expr>, t: TType)
    requires DerivesArgs(k, scope, funcs, cs, args) && Identifier(f) && Found(funcs, f) == Some(t)
    ensures Derives(k, scope, funcs, CCall(f, cs, Closed), Call(f, args, t), 7)
  {
    var o := [T.Tok(T.SYMBOL, f), OPEN];
    ProperConcat(o, YieldArgs(cs));
    ProperConcat(o + YieldArgs(cs), [CLOSE]);
  }

  lemma {:induction false} ArgsLaw(k: FloatReader, scope: Table, funcs: Table, es: seq<Expr>)
    requires PrintableArgs(k, scope, funcs, es)
    ensures DerivesArgs(k, scope, funcs, DeriveArgs(k, es), es)
    decreases es
  {
    if es != [] {
      DeriveLaw(k, scope, funcs, es[0], 0);
      ArgsLaw(k, scope, funcs, es[1..]);
      ArgsConsLaw(k, scope, funcs, Derive(k, es[0], 0), DeriveArgs(k, es[1..]), es);
    }
  }

  lemma ArgsConsLaw(k: FloatReader, scope: Table, funcs: Table, c: CExpr, cs: seq<CExpr>, es: seq<Expr>)
    requires es != [] && Derives(k, scope, funcs, c, es[0], 0) && DerivesArgs(k, scope, funcs, cs, es[1..])
    ensures DerivesArgs(k, scope, funcs, [c] + cs, es)
  {
    hide AtLevel, NoneRedundant, Yield, Denote, Neat, EndsOpen;
    var ds := [c] + cs;
    assert ds[1..] == cs && es == [es[0]] + es[1..];
    if cs == [] {
      assert YieldArgs(ds) == Yield(c);
    } else {
      ProperConcat(Yield(c), [COMMA_TOK]);
      ProperConcat(Yield(c) + [COMMA_TOK], YieldArgs(cs));
    }
  }

  // ----- statements -----

  /** All that is said of a derivation of the statement `s`. */
  ghost predicate DerivesStmt(k: FloatReader, scope: Table, funcs: Table, c: CStmt, s: Stmt) {
    && WellFormed(c) && NeatStmt(c) && !StmtEndsOpen(c) && T.AllProper(YieldStmt(c)) && (OpenIf(c) <==> EndsInIf(s))
    && DenoteStmt(k, scope, funcs, c) == Some(Denoted(s, ScopeOf(scope, s)))
  }

  lemma TypeShown(t: TType)
    requires t != UNDEFINED
    ensures FromString(ShowType(t)) == t && T.Proper(T.Tok(T.TYPE, ShowType(t)))
  {
  }

  lemma CallStmtLaw(k: FloatReader, scope: Table, funcs: Table, s: Stmt)
    requires PrintableStmt(k, scope, funcs, s) && s.CallStmt?
    ensures DerivesStmt(k, scope, funcs, DeriveStmt(k, scope, s), s)
  {
    hide Denote, Yield;
    var e, cs := s.call, DeriveArgs(k, s.call.args);
    ArgsLaw(k, scope, funcs, e.args);
    CallLaw(k, scope, funcs, e.callee, cs, e.args, e.retTy);
    assert Yield(CCall(e.callee, cs, Closed)) + YieldSemi(false) == Yield(CCall(e.callee, cs, Closed));
  }

  lemma PrintLaw(k: FloatReader, scope: Table, funcs: Table, c: CExpr, e: Expr)
    requires Derives(k, scope, funcs, c, e, 0)
    ensures DerivesStmt(k, scope, funcs, CPrint(c, false), Print(e))
  {
    hide Denote, AtLevel, Yield, Neat, EndsOpen;
    var o := [T.Tok(T.IO_PRINT, "print")];
    ProperConcat(o, Yield(c));
    assert YieldStmt(CPrint(c, false)) == o + Yield(c);
  }

  lemma ReturnLaw(k: FloatReader, scope: Table, funcs: Table, c: CExpr, e: Expr)
    requires Derives(k, scope, funcs, c, e, 0)
    ensures DerivesStmt(k, scope, funcs, CReturn(c, false), Return(e))
  {
    hide Denote, AtLevel, Yield, Neat, EndsOpen;
    var o := [T.Tok(T.RETURN, "return")];
    ProperConcat(o, Yield(c));
    assert YieldStmt(CReturn(c, false)) == o + Yield(c);
  }

  lemma AssignLaw(k: FloatReader, scope: Table, funcs: Table, s: Stmt)
    requires PrintableStmt(k, scope, funcs, s) && s.Assign?
    ensures DerivesStmt(k, scope, funcs, DeriveStmt(k, scope, s), s)
  {
    hide Denote, AtLevel, Yield, Neat, EndsOpen;
    DeriveLaw(k, scope, funcs, s.rhs, 0);
    TypeShown(s.varTy);
    var c := Derive(k, s.rhs, 0);
    var o := [T.Tok(T.SYMBOL, s.name), T.Tok(T.ASSIGN, "=")];
    ProperConcat(o, Yield(c));
    assert o + Yield(c) + YieldSemi(false) == o + Yield(c);
    if s.name !in scope {
      var o1 := [T.Tok(T.TYPE, ShowType(s.varTy))] + o;
      ProperConcat(o1, Yield(c));
      assert o1 + Yield(c) + YieldSemi(false) == o1 + Yield(c);
    }
  }

  lemma {:induction false} StmtLaw(k: FloatReader, scope: Table, funcs: Table, s: Stmt)
    requires PrintableStmt(k, scope, funcs, s)
    ensures DerivesStmt(k, scope, funcs, DeriveStmt(k, scope, s), s)
    decreases s
  {
    hide DerivesStmt, Derives;
    match s
    case Assign(_, _, _) => AssignLaw(k, scope, funcs, s);
    case Print(e) =>
      DeriveLaw(k, scope, funcs, e, 0);
      PrintLaw(k, scope, funcs, Derive(k, e, 0), e);
    case Return(e) =>
      DeriveLaw(k, scope, funcs, e, 0);
      ReturnLaw(k, scope, funcs, Derive(k, e, 0), e);
    case CallStmt(_) => CallStmtLaw(k, scope, funcs, s);
    case Block(ss) =>
      SeqLaw(k, scope, funcs, ss);
      BlockLaw(k, scope, funcs, DeriveSeq(k, scope, ss), ss);
    case If(c, a, b) =>
      DeriveLaw(k, scope, funcs, c, 0);
      StmtLaw(k, scope, funcs, a);
      if b.Some? {
        StmtLaw(k, ScopeOf(scope, a), funcs, b.value);
        ElseLaw(k, scope, funcs, Derive(k, c, 0), c, DeriveStmt(k, scope, a), a,
                DeriveStmt(k, ScopeOf(scope, a), b.value), b.value);
      } else {
        IfLaw(k, scope, funcs, Derive(k, c, 0), c, DeriveStmt(k, scope, a), a);
      }
    case While(c, a) =>
      DeriveLaw(k, scope, funcs, c, 0);
      StmtLaw(k, scope, funcs, a);
      WhileLaw(k, scope, funcs, Derive(k, c, 0), c, DeriveStmt(k, scope, a), a);
    case DoWhile(a, c) =>
      StmtLaw(k, scope, funcs, a);
      DeriveLaw(k, ScopeOf(scope, a), funcs, c, 0);
      DoLaw(k, scope, funcs, Derive(k, c, 0), c, DeriveStmt(k, scope, a), a);
  }

  lemma WhileLaw(k: FloatReader, scope: Table, funcs: Table, e: CExpr, c: Expr, a: CStmt, s: Stmt)
    requires Derives(k, scope, funcs, e, c, 0) && c.Type() == BOOL && DerivesStmt(k, scope, funcs, a, s)
    ensures DerivesStmt(k, scope, funcs, CWhile(e, a), While(c, s))
  {
    hide Denote, AtLevel, Yield, Neat, EndsOpen;
    var o := [T.Tok(T.WHILE, "while")];
    ProperConcat(o, Yield(e));
    ProperConcat(o + Yield(e), YieldStmt(a));
  }

  lemma DoLaw(k: FloatReader, scope: Table, funcs: Table, e: CExpr, c: Expr, a: CStmt, s: Stmt)
    requires Derives(k, ScopeOf(scope, s), funcs, e, c, 0) && c.Type() == BOOL && DerivesStmt(k, scope, funcs, a, s)
    ensures DerivesStmt(k, scope, funcs, CDoWhile(a, e), DoWhile(s, c))
  {
    hide Denote, AtLevel, Yield, Neat, EndsOpen;
    var o := [T.Tok(T.DO, "do")];
    ProperConcat(o, YieldStmt(a));
    ProperConcat(o + YieldStmt(a), [T.Tok(T.WHILE, "while")]);
    ProperConcat(o + YieldStmt(a) + [T.Tok(T.WHILE, "while")], Yield(e));
  }

  lemma IfLaw(k: FloatReader, scope: Table, funcs: Table, e: CExpr, c: Expr, a: CStmt, s: Stmt)
    requires Derives(k, scope, funcs, e, c, 0) && c.Type() == BOOL && DerivesStmt(k, scope, funcs, a, s)
    ensures DerivesStmt(k, scope, funcs, CIf(e, a, None), If(c, s, None))
  {
    hide Denote, AtLevel, Yield, Neat, EndsOpen;
    var o := [T.Tok(T.IF, "if")];
    ProperConcat(o, Yield(e));
    ProperConcat(o + Yield(e), YieldStmt(a));
    assert YieldElse(None) == [];
    assert YieldStmt(CIf(e, a, None)) == o + Yield(e) + YieldStmt(a);
  }

  lemma ElseLaw(k: FloatReader, scope: Table, funcs: Table, e: CExpr, c: Expr, a: CStmt, s: Stmt, b: CStmt, t: Stmt)
    requires Derives(k, scope, funcs, e, c, 0) && c.Type() == BOOL && DerivesStmt(k, scope, funcs, a, s)
    requires DerivesStmt(k, ScopeOf(scope, s), funcs, b, t) && !EndsInIf(s)
    ensures DerivesStmt(k, scope, funcs, CIf(e, a, Some(b)), If(c, s, Some(t)))
  {
    hide Denote, AtLevel, Yield, Neat, EndsOpen, NoneRedundant, PrintableExpr, T.AllProper, YieldStmt;
    ElseProper(e, a, b);
  }

  lemma ElseProper(e: CExpr, a: CStmt, b: CStmt)
    requires T.AllProper(Yield(e)) && T.AllProper(YieldStmt(a)) && T.AllProper(YieldStmt(b))
    ensures T.AllProper(YieldStmt(CIf(e, a, Some(b))))
  {
    hide Yield;
    var o := [T.Tok(T.IF, "if")];
    ProperConcat(o, Yield(e));
    ProperConcat(o + Yield(e), YieldStmt(a));
    ProperConcat([T.Tok(T.ELSE, "else")], YieldStmt(b));
    ProperConcat(o + Yield(e) + YieldStmt(a), YieldElse(Some(b)));
  }

  ghost predicate DerivesSeq(k: FloatReader, scope: Table, funcs: Table, cs: seq<CStmt>, ss: seq<Stmt>) {
    && (forall i :: 0 <= i < |cs| ==> WellFormed(cs[i]) && NeatStmt(cs[i]) && !StmtEndsOpen(cs[i])) && T.AllProper(YieldStmts(cs))
    && DenoteStmts(k, scope, funcs, cs) == Some(DenotedSeq(ss, ScopeOfSeq(scope, ss)))
  }

  lemma BlockLaw(k: FloatReader, scope: Table, funcs: Table, cs: seq<CStmt>, ss: seq<Stmt>)
    requires DerivesSeq(k, scope, funcs, cs, ss)
    ensures DerivesStmt(k, scope, funcs, CBlock(cs), Block(ss))
  {
    hide YieldStmts, DenoteStmts;
    var o := [T.Tok(T.BL, "{")];
    ProperConcat(o, YieldStmts(cs));
    ProperConcat(o + YieldStmts(cs), [T.Tok(T.BR, "}")]);
    assert NeatStmts(cs);
  }

  lemma {:induction false} SeqLaw(k: FloatReader, scope: Table, funcs: Table, ss: seq<Stmt>)
    requires PrintableSeq(k, scope, funcs, ss)
    ensures DerivesSeq(k, scope, funcs, DeriveSeq(k, scope, ss), ss)
    decreases ss
  {
    if ss != [] {
      StmtLaw(k, scope, funcs, ss[0]);
      SeqLaw(k, ScopeOf(scope, ss[0]), funcs, ss[1..]);
      SeqConsLaw(k, scope, funcs, DeriveStmt(k, scope, ss[0]), DeriveSeq(k, ScopeOf(scope, ss[0]), ss[1..]), ss);
    }
  }

  lemma SeqConsLaw(k: FloatReader, scope: Table, funcs: Table, c: CStmt, cs: seq<CStmt>, ss: seq<Stmt>)
    requires ss != [] && DerivesStmt(k, scope, funcs, c, ss[0])
    requires DerivesSeq(k, ScopeOf(scope, ss[0]), funcs, cs, ss[1..])
    ensures DerivesSeq(k, scope, funcs, [c] + cs, ss)
  {
    hide WellFormed, YieldStmt, DenoteStmt, NeatStmt, StmtEndsOpen;
    assert ([c] + cs)[1..] == cs && ss == [ss[0]] + ss[1..];
    ProperConcat(YieldStmt(c), YieldStmts(cs));
  }

  // ----- functions and files -----

  lemma {:induction false} ParamsLaw(ps: seq<Param>)
    requires ProperParams(ps)
    ensures DenoteParams(DeriveParams(ps)) == ps && T.AllProper(YieldParams(DeriveParams(ps), false))
    decreases ps
  {
    hide FromString, ShowType, T.KeywordType;
    if ps != [] {
      ParamsLaw(ps[1..]);
      TypeShown(ps[0].ty);
      var cs := DeriveParams(ps);
      assert cs[1..] == DeriveParams(ps[1..]);
      var o := [T.Tok(T.TYPE, cs[0].ty), T.Tok(T.SYMBOL, cs[0].name)];
      var comma := if |cs| > 1 then [COMMA_TOK] else [];
      ProperConcat(o, comma);
      ProperConcat(o + comma, YieldParams(cs[1..], false));
    }
  }

  lemma FunctionLaw(k: FloatReader, funcs: Table, d: FunctionDef)
    requires PrintableFunction(k, funcs, d)
    ensures var c := DeriveFunction(k, d);
      && WellFormedFunction(c) && T.AllProper(YieldFunction(c)) && DenoteFunction(k, funcs, c) == Some(d)
      && c.name == d.name && FromString(c.ty) == d.ty && NeatFunction(c) && !StmtEndsOpen(c.body)
  {
    hide NeatStmt, StmtEndsOpen, WellFormed, YieldStmt, YieldSignature, DenoteStmt, ParamScope, T.AllProper,
      T.Proper, DenoteParams, DeriveParams;
    var c := DeriveFunction(k, d);
    ParamsLaw(d.params);
    TypeShown(d.ty);
    StmtLaw(k, ParamScope(d.params), Insert(funcs, d.name, d.ty), d.body);
    SignatureProper(c);
    HeadProper(d);
    var o, q := [T.Tok(T.FUNC, "func"), T.Tok(T.SYMBOL, c.name)], [T.Tok(T.COLON, ":"), T.Tok(T.TYPE, c.ty)];
    ProperConcat(o, YieldSignature(c));
    ProperConcat(o + YieldSignature(c), q);
    ProperConcat(o + YieldSignature(c) + q, YieldStmt(c.body));
  }

  lemma HeadProper(d: FunctionDef)
    requires Identifier(d.name) && d.ty != UNDEFINED
    ensures T.AllProper([T.Tok(T.FUNC, "func"), T.Tok(T.SYMBOL, d.name)])
    ensures T.AllProper([T.Tok(T.COLON, ":"), T.Tok(T.TYPE, ShowType(d.ty))])
  {
  }

  lemma SignatureProper(c: CFunction)
    requires T.AllProper(YieldParams(c.params, c.comma)) && c.ending.Shut?
    ensures T.AllProper(YieldSignature(c))
  {
    ProperConcat([OPEN], YieldParams(c.params, c.comma));
    ProperConcat([OPEN] + YieldParams(c.params, c.comma), [CLOSE]);
  }

  lemma {:induction false} FileLaw(k: FloatReader, funcs: Table, p: Program)
    requires PrintableFile(k, funcs, p)
    ensures var cs := DeriveFile(k, p);
      && WellFormedFile(cs) && T.AllProper(YieldFile(cs)) && DenoteFile(k, funcs, cs) == Some(p)
      && NeatFile(cs) && forall i :: 0 <= i < |cs| ==> !StmtEndsOpen(cs[i].body)
    decreases p
  {
    hide NeatFunction, StmtEndsOpen, WellFormedFunction, YieldFunction, DenoteFunction, DeriveFunction, PrintableFunction;
    if p != [] {
      FunctionLaw(k, funcs, p[0]);
      FileLaw(k, Insert(funcs, p[0].name, p[0].ty), p[1..]);
      var cs := DeriveFile(k, p);
      assert cs[1..] == DeriveFile(k, p[1..]) && p == [p[0]] + p[1..];
      ProperConcat(YieldFunction(cs[0]), YieldFile(cs[1..]));
    }
  }

  /** Printing a program and parsing the tokens gives the program back, types and all, without a
      message and with every token consumed. */
  lemma ParsingUndoesPrinting(k: FloatReader, p: Program)
    requires PrintableFile(k, map[], p)
    ensures T.AllProper(Render(k, p))
    ensures var r := Parse(k, Render(k, p));
      r.root == Vector(p) && !r.s.diagnosed && !r.s.isError
  {
    FileLaw(k, map[], p);
    ParserAcceptsGrammar(k, DeriveFile(k, p), p);
  }
}
