/** Exactly the printable programs come out of the parser. */
module Image {
  import opened Wrappers
  import opened Ast
  import opened Parsing
  import opened Grammar
  import opened SoundFiles
  import opened Printing
  import opened RoundTrip
  import T = Tokens

  lemma ProperParts(a: seq<T.Tok>, b: seq<T.Tok>)
    requires T.AllLexed(a + b)
    ensures T.AllLexed(a) && T.AllLexed(b)
  {
    forall i | 0 <= i < |a| ensures T.Lexed(a[i]) {
      assert (a + b)[i] == a[i];
    }
    forall i | 0 <= i < |b| ensures T.Lexed(b[i]) {
      assert (a + b)[|a| + i] == b[i];
    }
  }

  lemma ProperFirst(t: T.Tok, b: seq<T.Tok>)
    requires T.AllLexed([t] + b)
    ensures T.Lexed(t) && T.AllLexed(b)
  {
    ProperParts([t], b);
    assert [t][0] == t;
  }

  /** An operator token of a level is one of the operators of that level. */
  lemma OperatorOfLevel(level: nat, l: string)
    requires level < 6 && T.Lexed(T.Tok(LevelToken(level), l))
    ensures LevelOf(BinaryOperator(l)) == level
  {
  }

  lemma OperatorOfUnary(t: T.Tok)
    requires T.Lexed(t) && (t.ty == T.ADD || t.ty == T.NOT)
    ensures UnaryToken(UnaryOperator(t.lexeme)).ty == t.ty
  {
  }

  lemma {:induction false} DenotedIsPrintable(k: FloatReader, scope: Table, funcs: Table, c: CExpr, level: nat)
    requires AtLevel(c, level) && T.AllLexed(Yield(c)) && Denote(k, scope, funcs, c).Some?
    ensures PrintableExpr(k, scope, funcs, Denote(k, scope, funcs, c).value)
    decreases c
  {
    match c
    case CVar(x) => ProperFirst(T.Tok(T.SYMBOL, x), []);
    case CBool(_) =>
    case CInt(_) =>
    case CFloat(l) => ProperFirst(T.Tok(T.FLOAT, l), []);
    case CParen(a) =>
      ProperParts([OPEN] + Yield(a), [CLOSE]);
      ProperParts([OPEN], Yield(a));
      DenotedIsPrintable(k, scope, funcs, a, 0);
    case CCall(f, args, z) =>
      var o := [T.Tok(T.SYMBOL, f), OPEN];
      ProperParts(o + YieldArgs(args), YieldClosing(z));
      ProperParts(o, YieldArgs(args));
      assert o == [T.Tok(T.SYMBOL, f)] + [OPEN];
      ProperFirst(T.Tok(T.SYMBOL, f), [OPEN]);
      ArgsArePrintable(k, scope, funcs, args);
    case CUnary(op, a) =>
      ProperFirst(op, Yield(a));
      DenotedIsPrintable(k, scope, funcs, a, 6);
      OperatorOfUnary(op);
    case CBinary(l, op, a, b) =>
      var o := T.Tok(LevelToken(l), op);
      ProperParts(Yield(a) + [o], Yield(b));
      ProperParts(Yield(a), [o]);
      ProperFirst(o, []);
      DenotedIsPrintable(k, scope, funcs, a, l + 1);
      DenotedIsPrintable(k, scope, funcs, b, l);
      OperatorOfLevel(l, op);
  }

  lemma {:induction false} ArgsArePrintable(k: FloatReader, scope: Table, funcs: Table, args: seq<CExpr>)
    requires forall i :: 0 <= i < |args| ==> AtLevel(args[i], 0)
    requires T.AllLexed(YieldArgs(args)) && DenoteArgs(k, scope, funcs, args).Some?
    ensures PrintableArgs(k, scope, funcs, DenoteArgs(k, scope, funcs, args).value)
    decreases args
  {
    if |args| == 1 {
      DenotedIsPrintable(k, scope, funcs, args[0], 0);
      assert DenoteArgs(k, scope, funcs, args[1..]) == Some([]);
      assert DenoteArgs(k, scope, funcs, args).value[1..] == [];
    } else if |args| > 1 {
      ProperParts(Yield(args[0]) + [COMMA_TOK], YieldArgs(args[1..]));
      ProperParts(Yield(args[0]), [COMMA_TOK]);
      DenotedIsPrintable(k, scope, funcs, args[0], 0);
      ArgsArePrintable(k, scope, funcs, args[1..]);
      var es := DenoteArgs(k, scope, funcs, args).value;
      assert es[1..] == DenoteArgs(k, scope, funcs, args[1..]).value;
    }
  }

  // ----- statements -----

  /** Every name of the table has a type. */
  predicate Resolved(scope: Table) {
    forall x :: x in scope ==> scope[x].Some? && scope[x].value != UNDEFINED
  }

  /** The scope a derivation leaves is the one its statement leaves. */
  ghost predicate Scoped(scope: Table, d: Denoted) {
    d.scope == ScopeOf(scope, d.st) && Resolved(d.scope)
  }

  lemma ProperTypeName(t: string, b: seq<T.Tok>)
    requires T.AllLexed([T.Tok(T.TYPE, t)] + b)
    ensures FromString(t) != UNDEFINED && T.AllLexed(b)
  {
    ProperFirst(T.Tok(T.TYPE, t), b);
  }

  ghost predicate StmtImage(k: FloatReader, scope: Table, funcs: Table, c: CStmt) {
    var d := DenoteStmt(k, scope, funcs, c);
    d.Some? ==> PrintableStmt(k, scope, funcs, d.value.st) && Scoped(scope, d.value) && (OpenIf(c) <==> EndsInIf(d.value.st))
  }

  lemma AssignLexed(c: CStmt)
    requires (c.CDeclare? || c.CAssign?) && T.AllLexed(YieldStmt(c))
    ensures T.AllLexed(Yield(c.rhs)) && Identifier(c.name) && (c.CDeclare? ==> FromString(c.ty) != UNDEFINED)
  {
    hide Yield, FromString;
    var o := [T.Tok(T.SYMBOL, c.name), T.Tok(T.ASSIGN, "=")];
    if c.CDeclare? {
      assert YieldStmt(c) == [T.Tok(T.TYPE, c.ty)] + (o + Yield(c.rhs) + YieldSemi(c.semi));
      ProperTypeName(c.ty, o + Yield(c.rhs) + YieldSemi(c.semi));
    }
    ProperParts(o + Yield(c.rhs), YieldSemi(c.semi));
    ProperParts(o, Yield(c.rhs));
    assert T.Lexed(o[0]);
  }

  lemma AssignImage(k: FloatReader, scope: Table, funcs: Table, c: CStmt)
    requires (c.CDeclare? || c.CAssign?) && WellFormed(c) && T.AllLexed(YieldStmt(c)) && Resolved(scope)
    ensures StmtImage(k, scope, funcs, c)
  {
    hide Denote, AtLevel, Yield, PrintableExpr, YieldStmt, T.AllLexed, T.Lexed, FromString;
    AssignLexed(c);
    if Denote(k, scope, funcs, c.rhs).Some? {
      DenotedIsPrintable(k, scope, funcs, c.rhs, 0);
    }
  }

  lemma SimpleImage(k: FloatReader, scope: Table, funcs: Table, c: CStmt, t: T.Tok, e: CExpr, semi: bool)
    requires c == CPrint(e, semi) || c == CReturn(e, semi)
    requires t == if c.CPrint? then T.Tok(T.IO_PRINT, "print") else T.Tok(T.RETURN, "return")
    requires WellFormed(c) && T.AllLexed(YieldStmt(c)) && Resolved(scope)
    ensures StmtImage(k, scope, funcs, c)
  {
    hide Denote, AtLevel, Yield, PrintableExpr;
    ProperParts([t] + Yield(e), YieldSemi(semi));
    ProperParts([t], Yield(e));
    if Denote(k, scope, funcs, e).Some? {
      DenotedIsPrintable(k, scope, funcs, e, 0);
    }
  }

  lemma CallImage(k: FloatReader, scope: Table, funcs: Table, c: CStmt)
    requires c.CCallStmt? && WellFormed(c) && T.AllLexed(YieldStmt(c)) && Resolved(scope)
    ensures StmtImage(k, scope, funcs, c)
  {
    var call := CCall(c.callee, c.args, c.closing);
    ProperParts(Yield(call), YieldSemi(c.semi));
    if Denote(k, scope, funcs, call).Some? {
      DenotedIsPrintable(k, scope, funcs, call, 0);
    }
  }

  lemma ConditionImage(k: FloatReader, scope: Table, funcs: Table, c: CExpr)
    requires AtLevel(c, 0) && T.AllLexed(Yield(c)) && DenoteCondition(k, scope, funcs, c).Some?
    ensures var e := DenoteCondition(k, scope, funcs, c).value;
      PrintableExpr(k, scope, funcs, e) && e.Type() == BOOL
  {
    DenotedIsPrintable(k, scope, funcs, c, 0);
  }

  lemma {:induction false} StmtIsPrintable(k: FloatReader, scope: Table, funcs: Table, c: CStmt)
    requires WellFormed(c) && T.AllLexed(YieldStmt(c)) && Resolved(scope)
    ensures StmtImage(k, scope, funcs, c)
    decreases c
  {
    hide StmtImage, YieldStmt, T.AllLexed;
    match c
    case CDeclare(_, _, _, _) => AssignImage(k, scope, funcs, c);
    case CAssign(_, _, _) => AssignImage(k, scope, funcs, c);
    case CPrint(e, semi) => SimpleImage(k, scope, funcs, c, T.Tok(T.IO_PRINT, "print"), e, semi);
    case CReturn(e, semi) => SimpleImage(k, scope, funcs, c, T.Tok(T.RETURN, "return"), e, semi);
    case CCallStmt(_, _, _, _) => CallImage(k, scope, funcs, c);
    case CBlock(ss) => BlockImage(k, scope, funcs, c);
    case CIf(_, _, _) => IfImage(k, scope, funcs, c);
    case CWhile(_, _) => WhileImage(k, scope, funcs, c);
    case CDoWhile(_, _) => DoImage(k, scope, funcs, c);
  }

  lemma {:induction false} WhileImage(k: FloatReader, scope: Table, funcs: Table, c: CStmt)
    requires c.CWhile? && WellFormed(c) && T.AllLexed(YieldStmt(c)) && Resolved(scope)
    ensures StmtImage(k, scope, funcs, c)
    decreases c, 0
  {
    hide DenoteCondition, AtLevel, Yield, T.AllLexed, PrintableExpr;
    var o := [T.Tok(T.WHILE, "while")];
    ProperParts(o + Yield(c.cond), YieldStmt(c.body));
    ProperParts(o, Yield(c.cond));
    if DenoteStmt(k, scope, funcs, c).Some? {
      ConditionImage(k, scope, funcs, c.cond);
      StmtIsPrintable(k, scope, funcs, c.body);
    }
  }

  lemma {:induction false} DoImage(k: FloatReader, scope: Table, funcs: Table, c: CStmt)
    requires c.CDoWhile? && WellFormed(c) && T.AllLexed(YieldStmt(c)) && Resolved(scope)
    ensures StmtImage(k, scope, funcs, c)
    decreases c, 0
  {
    hide DenoteCondition, AtLevel, Yield, T.AllLexed, PrintableExpr;
    var o, w := [T.Tok(T.DO, "do")], [T.Tok(T.WHILE, "while")];
    ProperParts(o + YieldStmt(c.body) + w, Yield(c.cond));
    ProperParts(o + YieldStmt(c.body), w);
    ProperParts(o, YieldStmt(c.body));
    if DenoteStmt(k, scope, funcs, c).Some? {
      StmtIsPrintable(k, scope, funcs, c.body);
      ConditionImage(k, DenoteStmt(k, scope, funcs, c.body).value.scope, funcs, c.cond);
    }
  }

  lemma IfLexed(c: CStmt)
    requires c.CIf? && T.AllLexed(YieldStmt(c))
    ensures T.AllLexed(Yield(c.cond)) && T.AllLexed(YieldStmt(c.thn))
    ensures c.els.Some? ==> T.AllLexed(YieldStmt(c.els.value))
  {
    hide Yield, T.AllLexed;
    var o := [T.Tok(T.IF, "if")];
    ProperParts(o + Yield(c.cond) + YieldStmt(c.thn), YieldElse(c.els));
    ProperParts(o + Yield(c.cond), YieldStmt(c.thn));
    ProperParts(o, Yield(c.cond));
    if c.els.Some? {
      ProperParts([T.Tok(T.ELSE, "else")], YieldStmt(c.els.value));
    }
  }

  /** An `if` is a statement's image when its parts are. */
  lemma IfGathers(k: FloatReader, scope: Table, funcs: Table, c: CStmt)
    requires c.CIf? && WellFormed(c) && DenoteStmt(k, scope, funcs, c).Some?
    ensures DenoteCondition(k, scope, funcs, c.cond).Some? && DenoteStmt(k, scope, funcs, c.thn).Some?
    ensures var e, scope1 := DenoteCondition(k, scope, funcs, c.cond).value, DenoteStmt(k, scope, funcs, c.thn).value.scope;
      && PrintableExpr(k, scope, funcs, e) && e.Type() == BOOL && StmtImage(k, scope, funcs, c.thn)
      && (c.els.Some? ==> StmtImage(k, scope1, funcs, c.els.value))
      ==> StmtImage(k, scope, funcs, c)
  {
    hide PrintableExpr, DenoteCondition, AtLevel;
  }

  lemma {:induction false} IfImage(k: FloatReader, scope: Table, funcs: Table, c: CStmt)
    requires c.CIf? && WellFormed(c) && T.AllLexed(YieldStmt(c)) && Resolved(scope)
    ensures StmtImage(k, scope, funcs, c)
    decreases c, 0
  {
    hide DenoteCondition, AtLevel, Yield, YieldStmt, T.AllLexed, PrintableExpr, DenoteStmt, PrintableStmt, OpenIf, EndsInIf;
    IfLexed(c);
    if DenoteStmt(k, scope, funcs, c).Some? {
      IfGathers(k, scope, funcs, c);
      ConditionImage(k, scope, funcs, c.cond);
      StmtIsPrintable(k, scope, funcs, c.thn);
      if c.els.Some? {
        StmtIsPrintable(k, DenoteStmt(k, scope, funcs, c.thn).value.scope, funcs, c.els.value);
      }
    }
  }

  lemma {:induction false} BlockImage(k: FloatReader, scope: Table, funcs: Table, c: CStmt)
    requires c.CBlock? && WellFormed(c) && T.AllLexed(YieldStmt(c)) && Resolved(scope)
    ensures StmtImage(k, scope, funcs, c)
    decreases c, 0
  {
    hide DenoteStmts, YieldStmts, PrintableSeq, ScopeOfSeq;
    var o := [T.Tok(T.BL, "{")];
    ProperParts(o + YieldStmts(c.stmts), [T.Tok(T.BR, "}")]);
    ProperParts(o, YieldStmts(c.stmts));
    if DenoteStmt(k, scope, funcs, c).Some? {
      SeqIsPrintable(k, scope, funcs, c.stmts);
    }
  }

  lemma {:induction false} SeqIsPrintable(k: FloatReader, scope: Table, funcs: Table, ss: seq<CStmt>)
    requires (forall i :: 0 <= i < |ss| ==> WellFormed(ss[i])) && T.AllLexed(YieldStmts(ss)) && Resolved(scope)
    requires DenoteStmts(k, scope, funcs, ss).Some?
    ensures var d := DenoteStmts(k, scope, funcs, ss).value;
      PrintableSeq(k, scope, funcs, d.sts) && d.scope == ScopeOfSeq(scope, d.sts) && Resolved(d.scope)
    decreases ss
  {
    hide WellFormed, YieldStmt, DenoteStmt, T.AllLexed, PrintableStmt, ScopeOf;
    if ss != [] {
      var d1 := DenoteStmt(k, scope, funcs, ss[0]).value;
      ProperParts(YieldStmt(ss[0]), YieldStmts(ss[1..]));
      StmtIsPrintable(k, scope, funcs, ss[0]);
      SeqIsPrintable(k, d1.scope, funcs, ss[1..]);
      var d := DenoteStmts(k, scope, funcs, ss).value;
      assert d.sts[0] == d1.st && d.sts[1..] == DenoteStmts(k, d1.scope, funcs, ss[1..]).value.sts;
    }
  }

  // ----- functions and files -----

  lemma {:induction false} ParamScopeResolved(ps: seq<Param>)
    requires ProperParams(ps)
    ensures Resolved(ParamScope(ps))
    decreases ps
  {
    if ps != [] {
      ParamScopeResolved(ps[..|ps| - 1]);
    }
  }

  lemma {:induction false} ParamsArePrintable(ps: seq<CParam>, comma: bool)
    requires T.AllLexed(YieldParams(ps, comma))
    ensures ProperParams(DenoteParams(ps))
    decreases ps
  {
    if ps != [] {
      var o := [T.Tok(T.TYPE, ps[0].ty), T.Tok(T.SYMBOL, ps[0].name)];
      var c := if |ps| > 1 || comma then [COMMA_TOK] else [];
      ProperParts(o + c, YieldParams(ps[1..], comma));
      ProperParts(o, c);
      assert T.Lexed(o[0]) && T.Lexed(o[1]);
      ParamsArePrintable(ps[1..], comma);
      var qs := DenoteParams(ps);
      forall i | 0 <= i < |qs| ensures Identifier(qs[i].name) && qs[i].ty != UNDEFINED {
        if i > 0 {
          assert qs[i] == DenoteParams(ps[1..])[i - 1];
        }
      }
    }
  }

  lemma FunctionIsPrintable(k: FloatReader, funcs: Table, c: CFunction)
    requires WellFormedFunction(c) && T.AllLexed(YieldFunction(c)) && DenoteFunction(k, funcs, c).Some?
    ensures PrintableFunction(k, funcs, DenoteFunction(k, funcs, c).value)
  {
    hide WellFormed, YieldStmt, DenoteStmt, PrintableStmt, ScopeOf, ParamScope;
    var o, q := [T.Tok(T.FUNC, "func"), T.Tok(T.SYMBOL, c.name)], [T.Tok(T.COLON, ":"), T.Tok(T.TYPE, c.ty)];
    ProperParts(o + YieldSignature(c) + q, YieldStmt(c.body));
    ProperParts(o + YieldSignature(c), q);
    ProperParts(o, YieldSignature(c));
    assert T.Lexed(o[1]);
    SignatureParams(c);
    ParamScopeResolved(DenoteParams(c.params));
    StmtIsPrintable(k, ParamScope(DenoteParams(c.params)), Insert(funcs, c.name, FromString(c.ty)), c.body);
  }

  lemma SignatureParams(c: CFunction)
    requires T.AllLexed(YieldSignature(c)) && (c.params != [] ==> c.parens)
    ensures ProperParams(DenoteParams(c.params))
  {
    if c.parens {
      ProperParts([OPEN] + YieldParams(c.params, c.comma), YieldEnding(c.ending));
      ProperParts([OPEN], YieldParams(c.params, c.comma));
      ParamsArePrintable(c.params, c.comma);
    }
  }

  lemma {:induction false} FileIsPrintable(k: FloatReader, funcs: Table, cs: seq<CFunction>)
    requires WellFormedFile(cs) && T.AllLexed(YieldFile(cs)) && DenoteFile(k, funcs, cs).Some?
    ensures PrintableFile(k, funcs, DenoteFile(k, funcs, cs).value)
    decreases cs
  {
    hide WellFormedFunction, YieldFunction, PrintableFunction;
    if cs != [] {
      ProperParts(YieldFunction(cs[0]), YieldFile(cs[1..]));
      FunctionIsPrintable(k, funcs, cs[0]);
      FileIsPrintable(k, Insert(funcs, cs[0].name, FromString(cs[0].ty)), cs[1..]);
      var p := DenoteFile(k, funcs, cs).value;
      assert p[1..] == DenoteFile(k, Insert(funcs, cs[0].name, FromString(cs[0].ty)), cs[1..]).value;
    }
  }

  /** The programs the parser can return without an error are exactly the printable ones, and so are
      those it can return without a message. */
  lemma ParsedExactlyWhenPrintable(k: FloatReader, p: Program)
    ensures (exists tokens ::
              T.AllLexed(tokens) && Parse(k, tokens).root == Vector(p) && !Parse(k, tokens).s.isError)
       <==> PrintableFile(k, map[], p)
    ensures (exists tokens ::
              T.AllLexed(tokens) && Parse(k, tokens).root == Vector(p) && !Parse(k, tokens).s.diagnosed)
       <==> PrintableFile(k, map[], p)
  {
    hide PrintableFile, Parse;
    if PrintableFile(k, map[], p) {
      ParsingUndoesPrinting(k, p);
    }
    if tokens :| T.AllLexed(tokens) && Parse(k, tokens).root == Vector(p) && !Parse(k, tokens).s.isError {
      ParsedIsPrintable(k, tokens, p);
    }
    if tokens :| T.AllLexed(tokens) && Parse(k, tokens).root == Vector(p) && !Parse(k, tokens).s.diagnosed {
      ParserAcceptsExactlyGrammar(k, tokens, p);
      ParsedIsPrintable(k, tokens, p);
    }
  }

  lemma ParsedIsPrintable(k: FloatReader, tokens: seq<T.Tok>, p: Program)
    requires T.AllLexed(tokens) && Parse(k, tokens).root == Vector(p) && !Parse(k, tokens).s.isError
    ensures PrintableFile(k, map[], p)
  {
    hide Parse;
    ParserAcceptsExactlyGrammar(k, tokens, p);
    var cs :| WellFormedFile(cs) && YieldFile(cs) == tokens && DenoteFile(k, map[], cs) == Some(p);
    FileIsPrintable(k, map[], cs);
  }
}
