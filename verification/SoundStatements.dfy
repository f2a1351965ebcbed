/** Soundness of the parser for statements. */
module SoundStatements {
  import opened Wrappers
  import opened Ast
  import opened Parsing
  import opened Grammar
  import opened Completeness
  import opened CompleteStatements
  import opened ParserSoundness
  import T = Tokens

  /** The tree `c` accounts for the tokens between `s` and the result `r`, for the messages and for
      its statement, which does not go on with the next token. */
  ghost predicate AccountsStmt(k: FloatReader, s: PState, c: CStmt, r: StmtP) {
    && WellFormed(c) && s.rest == YieldStmt(c) + r.s.rest && r.st.Some?
    && DenoteStmt(k, s.scope, s.funcs, c) == Some(Denoted(r.st.value, r.s.scope))
    && r.s == After(s, NeatStmt(c), r.s.rest).(scope := r.s.scope) && T.AllLexed(r.s.rest)
    && (OpenIf(c) ==> HeadIsNot(r.s.rest, T.ELSE)) && (StmtEndsOpen(c) ==> r.s.rest == []) && MayFollow(c, r.s.rest)
  }

  ghost predicate CleanStmt(s: PState, r: StmtP) {
    T.AllLexed(s.rest) && r.st.Some? && !r.s.isError
  }

  /** An optional semicolon. */
  lemma SemicolonTaken(r: StmtP) returns (semi: bool)
    requires T.AllLexed(r.s.rest)
    ensures var t := Semicolon(r);
      && t.st == r.st && t.s == r.s.(rest := t.s.rest) && T.AllLexed(t.s.rest)
      && r.s.rest == YieldSemi(semi) + t.s.rest && (semi ==> r.s.rest != []) && (!semi ==> HeadIsNot(t.s.rest, T.SEMICOLON))
  {
    hide T.AllLexed, Fixed;
    FixedKinds();
    semi := At(r.s, T.SEMICOLON);
    LexedNext(r.s);
    if semi {
      Spelled(r.s, T.SEMICOLON);
    }
  }

  lemma SoundCondition(k: FloatReader, s: PState, r: ExprP) returns (c: CExpr)
    requires r == ParseCondition(k, s) && Clean(s, r)
    ensures AtLevel(c, 0) && s.rest == [Current(s)] + Yield(c) + r.s.rest && s.rest != []
    ensures r.s == After(s, Neat(c), r.s.rest) && T.AllLexed(r.s.rest) && Stops(c, r.s.rest, 0)
    ensures DenoteCondition(k, s.scope, s.funcs, c) == r.e
  {
    hide ParseExpression, AtLevel, Denote, Yield;
    c := SoundExpression(k, s, r);
  }

  lemma SoundDeclare(k: FloatReader, s: PState, r: StmtP) returns (c: CStmt)
    requires At(s, T.TYPE) && r == ParseStatement(k, s) && CleanStmt(s, r)
    ensures AccountsStmt(k, s, c, r)
  {
    hide ParseStatement, ParseDeclaration, ParseExpression, AtLevel, Denote, Yield, Semicolon, AccountsStmt;
    hide T.AllLexed, Fixed, Accounts, Neat, EndsOpen, GoesOn, YieldSemi;
    Dispatch(k, s);
    FixedKinds();
    var s1, s2 := Next(s), Next(Next(s));
    LexedNext(s);
    LexedNext(s1);
    var q := ParseDeclaration(k, s);
    NoErrorBefore(q);
    DeclareSteps(k, s);
    Spelled(s2, T.ASSIGN);
    var e := ParseExpression(k, s2);
    var rhs := SoundExpression(k, s2, e);
    NextLexed(k, s2, rhs, e);
    var semi := SemicolonTaken(q);
    c := CDeclare(Current(s).lexeme, Current(s1).lexeme, rhs, semi);
    TakenHalts(rhs, semi, e.s.rest, r.s.rest);
    DeclareAccounts(k, s, c, e, r);
  }

  lemma TakenHalts(c: CExpr, semi: bool, before: seq<T.Tok>, rest: seq<T.Tok>)
    requires before == YieldSemi(semi) + rest && Stops(c, before, 0) && (!semi ==> HeadIsNot(rest, T.SEMICOLON))
    ensures Halts(c, semi, rest) && (EndsOpen(c) ==> before == [] && rest == [])
  {
    hide GoesOn;
    assert !semi ==> before == rest;
  }

  /** What a declaration without an error consists of. */
  lemma DeclareSteps(k: FloatReader, s: PState)
    requires ParseDeclaration(k, s).st.Some? && !ParseDeclaration(k, s).s.isError
    ensures var s1, q := Next(s), ParseDeclaration(k, s);
      var x, t, e := Current(s1).lexeme, FromString(Current(s).lexeme), ParseExpression(k, Next(s1));
      && At(s1, T.SYMBOL) && At(Next(s1), T.ASSIGN) && x !in s.scope
      && e.e.Some? && !e.s.isError && Assignable(t, e.e.value.Type())
      && q == StmtP(Some(Assign(x, t, e.e.value)), e.s.(scope := Insert(e.s.scope, x, t)))
  {
    hide ParseExpression;
  }

  lemma DeclareAccounts(k: FloatReader, s: PState, c: CStmt, e: ExprP, r: StmtP)
    requires c.CDeclare? && Simple(c.rhs, c.semi) && Denote(k, s.scope, s.funcs, c.rhs) == e.e && e.e.Some?
    requires Halts(c.rhs, c.semi, r.s.rest) && (EndsOpen(c.rhs) ==> r.s.rest == [])
    requires c.name !in s.scope && Assignable(FromString(c.ty), e.e.value.Type())
    requires r.st == Some(Assign(c.name, FromString(c.ty), e.e.value))
    requires r.s == After(s, Neat(c.rhs), r.s.rest).(scope := Insert(s.scope, c.name, FromString(c.ty)))
    requires T.AllLexed(r.s.rest)
    requires s.rest == [T.Tok(T.TYPE, c.ty)] + ([T.Tok(T.SYMBOL, c.name)] +
      ([T.Tok(T.ASSIGN, "=")] + (Yield(c.rhs) + (YieldSemi(c.semi) + r.s.rest))))
    ensures AccountsStmt(k, s, c, r)
  {
    hide AtLevel, Denote, Yield, EndsOpen, Stops, HeadIsNot, YieldSemi, FromString, Assignable, T.AllLexed;
    DeclareTokens(c, r.s.rest);
  }

  lemma DeclareTokens(c: CStmt, rest: seq<T.Tok>)
    requires c.CDeclare?
    ensures YieldStmt(c) + rest == [T.Tok(T.TYPE, c.ty)] + ([T.Tok(T.SYMBOL, c.name)] +
      ([T.Tok(T.ASSIGN, "=")] + (Yield(c.rhs) + (YieldSemi(c.semi) + rest))))
  {
    hide Yield, YieldSemi;
  }

  /** An error before the semicolon is an error after it. */
  lemma NoErrorBefore(q: StmtP)
    ensures q.s.isError ==> Semicolon(q).s.isError
    ensures Semicolon(q).st == q.st
  {
  }

  lemma SoundAssign(k: FloatReader, s: PState, r: StmtP) returns (c: CStmt)
    requires At(s, T.SYMBOL) && !At(Next(s), T.PL) && r == ParseStatement(k, s) && CleanStmt(s, r)
    ensures AccountsStmt(k, s, c, r)
  {
    hide ParseStatement, ParseAssignment, ParseExpression, AtLevel, Denote, Yield, Semicolon, AccountsStmt;
    hide T.AllLexed, Fixed, Accounts, Neat, EndsOpen, GoesOn, YieldSemi;
    Dispatch(k, s);
    FixedKinds();
    var s1 := Next(s);
    LexedNext(s);
    var q := ParseAssignment(k, s);
    NoErrorBefore(q);
    AssignSteps(k, s);
    Spelled(s1, T.ASSIGN);
    var e := ParseExpression(k, s1);
    var rhs := SoundExpression(k, s1, e);
    NextLexed(k, s1, rhs, e);
    var semi := SemicolonTaken(q);
    c := CAssign(Current(s).lexeme, rhs, semi);
    TakenHalts(rhs, semi, e.s.rest, r.s.rest);
    AssignAccounts(k, s, c, e, r);
  }

  lemma AssignSteps(k: FloatReader, s: PState)
    requires ParseAssignment(k, s).st.Some? && !ParseAssignment(k, s).s.isError
    ensures var q, x := ParseAssignment(k, s), Current(s).lexeme;
      var t, e := Found(s.scope, x), ParseExpression(k, Next(s));
      && t.Some? && At(Next(s), T.ASSIGN) && e.e.Some? && !e.s.isError
      && Assignable(t.value, e.e.value.Type())
      && q == StmtP(Some(Assign(x, t.value, e.e.value)), e.s)
  {
    hide ParseExpression;
    assert Found(s.scope, Current(s).lexeme).Some? ==> Touch(s.scope, Current(s).lexeme) == s.scope;
  }

  lemma AssignAccounts(k: FloatReader, s: PState, c: CStmt, e: ExprP, r: StmtP)
    requires c.CAssign? && Simple(c.rhs, c.semi) && Denote(k, s.scope, s.funcs, c.rhs) == e.e && e.e.Some?
    requires Halts(c.rhs, c.semi, r.s.rest) && (EndsOpen(c.rhs) ==> r.s.rest == [])
    requires Found(s.scope, c.name).Some? && Assignable(Found(s.scope, c.name).value, e.e.value.Type())
    requires r.st == Some(Assign(c.name, Found(s.scope, c.name).value, e.e.value))
    requires r.s == After(s, Neat(c.rhs), r.s.rest) && T.AllLexed(r.s.rest)
    requires s.rest == [T.Tok(T.SYMBOL, c.name)] +
      ([T.Tok(T.ASSIGN, "=")] + (Yield(c.rhs) + (YieldSemi(c.semi) + r.s.rest)))
    ensures AccountsStmt(k, s, c, r)
  {
    hide AtLevel, Denote, Yield;
  }

  lemma SoundCallStmt(k: FloatReader, s: PState, r: StmtP) returns (c: CStmt)
    requires At(s, T.SYMBOL) && At(Next(s), T.PL) && r == ParseStatement(k, s) && CleanStmt(s, r)
    ensures AccountsStmt(k, s, c, r)
  {
    hide ParseFuncall, ParseStatement, Denote, Yield, Semicolon, AtLevel, NeatArgs, T.AllLexed, Stops, AccountsStmt;
    Dispatch(k, s);
    var q := ParseCallStatement(k, s);
    NoErrorBefore(q);
    var call := SoundCall(k, s, ParseFuncall(k, s));
    var semi := SemicolonTaken(q);
    c := CCallStmt(call.callee, call.args, call.closing, semi);
    CallStmtAccounts(k, s, call, semi, q, r);
  }

  lemma CallStmtAccounts(k: FloatReader, s: PState, c: CExpr, semi: bool, q: StmtP, r: StmtP)
    requires c.CCall? && q.st.Some? && q.st.value.CallStmt? && Accounts(k, s, c, 7, Some(q.st.value.call), q.s)
    requires r.st == q.st && r.s == q.s.(rest := r.s.rest) && T.AllLexed(r.s.rest)
    requires q.s.rest == YieldSemi(semi) + r.s.rest && (semi ==> q.s.rest != []) && (!semi ==> HeadIsNot(r.s.rest, T.SEMICOLON))
    ensures AccountsStmt(k, s, CCallStmt(c.callee, c.args, c.closing, semi), r)
  {
    LooserLevels(c);
    hide Denote, Yield, AtLevel, NeatArgs, T.AllLexed;
    assert Yield(c) + (YieldSemi(semi) + r.s.rest) == Yield(c) + YieldSemi(semi) + r.s.rest;
  }

  lemma LooserLevels(c: CExpr)
    requires AtLevel(c, 7)
    ensures AtLevel(c, 0)
  {
  }

  lemma SoundPrint(k: FloatReader, s: PState, r: StmtP) returns (c: CStmt)
    requires At(s, T.IO_PRINT) && r == ParseStatement(k, s) && CleanStmt(s, r)
    ensures AccountsStmt(k, s, c, r)
  {
    hide ParseExpression, AtLevel, Denote, Yield, Semicolon, T.AllLexed, Fixed, Neat, EndsOpen;
    FixedKinds();
    Spelled(s, T.IO_PRINT);
    var q := ParsePrint(k, s);
    NoErrorBefore(q);
    var e := SoundExpression(k, s, ParseExpression(k, s));
    var semi := SemicolonTaken(q);
    c := CPrint(e, semi);
    assert YieldStmt(c) + r.s.rest == [Current(s)] + Yield(e) + (YieldSemi(semi) + r.s.rest);
  }

  lemma SoundReturn(k: FloatReader, s: PState, r: StmtP) returns (c: CStmt)
    requires At(s, T.RETURN) && r == ParseStatement(k, s) && CleanStmt(s, r)
    ensures AccountsStmt(k, s, c, r)
  {
    hide ParseExpression, AtLevel, Denote, Yield, Semicolon, T.AllLexed, Fixed, Neat, EndsOpen;
    FixedKinds();
    Spelled(s, T.RETURN);
    var q := ParseReturn(k, s);
    NoErrorBefore(q);
    var e := SoundExpression(k, s, ParseExpression(k, s));
    var semi := SemicolonTaken(q);
    c := CReturn(e, semi);
    assert YieldStmt(c) + r.s.rest == [Current(s)] + Yield(e) + (YieldSemi(semi) + r.s.rest);
  }

  lemma {:induction false} SoundStmt(k: FloatReader, s: PState, r: StmtP) returns (c: CStmt)
    requires r == ParseStatement(k, s) && CleanStmt(s, r)
    ensures AccountsStmt(k, s, c, r)
    decreases |s.rest|, 11
  {
    hide AccountsStmt, ParseStatement;
    StatementStarts(k, s);
    match Current(s).ty
    case BL => c := SoundBlock(k, s, r);
    case IF => c := SoundIf(k, s, r);
    case WHILE => c := SoundWhile(k, s, r);
    case DO => c := SoundDoWhile(k, s, r);
    case TYPE => c := SoundDeclare(k, s, r);
    case SYMBOL =>
      if At(Next(s), T.PL) { c := SoundCallStmt(k, s, r); } else { c := SoundAssign(k, s, r); }
    case IO_PRINT => c := SoundPrint(k, s, r);
    case RETURN => c := SoundReturn(k, s, r);
  }

  lemma StatementStarts(k: FloatReader, s: PState)
    ensures ParseStatement(k, s).st.Some? ==> StartsStmt(Current(s).ty)
  {
    hide ParseDeclaration, ParseAssignment, ParseBlock, ParseIf, ParseWhile, ParseDoWhile, Semicolon,
      ParseCallStatement, ParsePrint, ParseReturn;
  }

  lemma {:induction false} SoundWhile(k: FloatReader, s: PState, r: StmtP) returns (c: CStmt)
    requires At(s, T.WHILE) && r == ParseStatement(k, s) && CleanStmt(s, r)
    ensures AccountsStmt(k, s, c, r)
    decreases |s.rest|, 10
  {
    hide ParseStatement, ParseCondition, AtLevel, DenoteCondition, Yield, DenoteStmt, YieldStmt, OpenIf, WellFormed;
    hide T.AllLexed, Fixed;
    Dispatch(k, s);
    FixedKinds();
    Spelled(s, T.WHILE);
    var q := ParseCondition(k, s);
    var b := ParseStatement(k, q.s);
    var e := SoundCondition(k, s, q);
    var body := SoundStmt(k, q.s, b);
    c := CWhile(e, body);
    WhileAccounts(k, s, e, body, q, b);
  }

  /** A condition with a statement after it. */
  ghost predicate AccountsTest(k: FloatReader, s: PState, e: CExpr, q: ExprP) {
    && AtLevel(e, 0) && q.e.Some? && DenoteCondition(k, s.scope, s.funcs, e) == q.e
    && q.s == After(s, Neat(e), q.s.rest) && Stops(e, q.s.rest, 0)
  }

  lemma StmtNotEmpty(k: FloatReader, s: PState, c: CStmt, r: StmtP)
    requires AccountsStmt(k, s, c, r)
    ensures s.rest != []
  {
    StmtStarts(c);
  }

  lemma WhileAccounts(k: FloatReader, s: PState, e: CExpr, body: CStmt, q: ExprP, b: StmtP)
    requires AccountsTest(k, s, e, q) && AccountsStmt(k, q.s, body, b)
    requires s.rest == [T.Tok(T.WHILE, "while")] + Yield(e) + q.s.rest
    ensures AccountsStmt(k, s, CWhile(e, body), StmtP(Some(While(q.e.value, b.st.value)), b.s))
  {
    hide AtLevel, DenoteCondition, Yield, Neat, GoesOn;
    StmtNotEmpty(k, q.s, body, b);
  }

  lemma NextState(s: PState)
    ensures Next(s) == s.(rest := Next(s).rest)
  {
  }

  lemma {:induction false} SoundDoWhile(k: FloatReader, s: PState, r: StmtP) returns (c: CStmt)
    requires At(s, T.DO) && r == ParseStatement(k, s) && CleanStmt(s, r)
    ensures AccountsStmt(k, s, c, r)
    decreases |s.rest|, 10
  {
    hide ParseStatement, ParseCondition, AtLevel, DenoteCondition, Yield, DenoteStmt, YieldStmt, OpenIf, WellFormed;
    hide T.AllLexed, Fixed;
    Dispatch(k, s);
    FixedKinds();
    Spelled(s, T.DO);
    var b := ParseStatement(k, Next(s));
    var q := ParseCondition(k, b.s);
    var body := SoundStmt(k, Next(s), b);
    Spelled(b.s, T.WHILE);
    var e := SoundCondition(k, b.s, q);
    c := CDoWhile(body, e);
    DoAccounts(k, s, e, body, q, b);
  }

  lemma DoAccounts(k: FloatReader, s: PState, e: CExpr, body: CStmt, q: ExprP, b: StmtP)
    requires AccountsTest(k, b.s, e, q)
    requires s.rest == [T.Tok(T.DO, "do")] + Next(s).rest && AccountsStmt(k, Next(s), body, b)
    requires b.s.rest == [T.Tok(T.WHILE, "while")] + Yield(e) + q.s.rest
    requires T.AllLexed(q.s.rest)
    ensures AccountsStmt(k, s, CDoWhile(body, e), StmtP(Some(DoWhile(b.st.value, q.e.value)), q.s))
  {
    DoForm(k, s.scope, s.funcs, body, e);
    hide AtLevel, DenoteCondition, Yield, YieldStmt, Neat, NeatStmt, EndsOpen, StmtEndsOpen, WellFormed, OpenIf, DenoteStmt,
      T.AllLexed, Next, GoesOn;
    NextState(s);
    DoTokens([T.Tok(T.DO, "do")], YieldStmt(body), [T.Tok(T.WHILE, "while")], Yield(e), q.s.rest);
  }

  lemma DoForm(k: FloatReader, scope: Table, funcs: Table, body: CStmt, e: CExpr)
    ensures var c := CDoWhile(body, e);
      && (WellFormed(c) <==> WellFormed(body) && !StmtEndsOpen(body) && AtLevel(e, 0)) && !OpenIf(c)
      && (StmtEndsOpen(c) <==> EndsOpen(e)) && (NeatStmt(c) <==> NeatStmt(body) && Neat(e))
      && YieldStmt(c) == [T.Tok(T.DO, "do")] + YieldStmt(body) + [T.Tok(T.WHILE, "while")] + Yield(e)
    ensures var d := DenoteStmt(k, scope, funcs, body);
      d.Some? ==>
        var x := DenoteCondition(k, d.value.scope, funcs, e);
        x.Some? ==>
          DenoteStmt(k, scope, funcs, CDoWhile(body, e)) == Some(Denoted(DoWhile(d.value.st, x.value), d.value.scope))
  {
    hide AtLevel, DenoteCondition, Yield, Neat, EndsOpen;
  }

  lemma DoTokens(a: seq<T.Tok>, b: seq<T.Tok>, c: seq<T.Tok>, d: seq<T.Tok>, rest: seq<T.Tok>)
    ensures a + (b + (c + d + rest)) == a + b + c + d + rest
  {
  }

  lemma {:induction false} SoundIf(k: FloatReader, s: PState, r: StmtP) returns (c: CStmt)
    requires At(s, T.IF) && r == ParseStatement(k, s) && CleanStmt(s, r)
    ensures AccountsStmt(k, s, c, r)
    decreases |s.rest|, 10
  {
    hide ParseStatement, ParseCondition, AtLevel, DenoteCondition, Yield, DenoteStmt, YieldStmt, OpenIf, WellFormed;
    hide T.AllLexed, Fixed;
    Dispatch(k, s);
    FixedKinds();
    Spelled(s, T.IF);
    var q := ParseCondition(k, s);
    var a := ParseStatement(k, q.s);
    var e := SoundCondition(k, s, q);
    var thn := SoundStmt(k, q.s, a);
    if At(a.s, T.ELSE) {
      Spelled(a.s, T.ELSE);
      var b := ParseStatement(k, Next(a.s));
      var els := SoundStmt(k, Next(a.s), b);
      c := CIf(e, thn, Some(els));
      ElseAccounts(k, s, e, thn, els, q, a, b);
    } else {
      c := CIf(e, thn, None);
      ThenAccounts(k, s, e, thn, q, a);
    }
  }

  lemma ThenAccounts(k: FloatReader, s: PState, e: CExpr, thn: CStmt, q: ExprP, a: StmtP)
    requires AccountsTest(k, s, e, q) && AccountsStmt(k, q.s, thn, a) && !At(a.s, T.ELSE)
    requires s.rest == [T.Tok(T.IF, "if")] + Yield(e) + q.s.rest
    ensures AccountsStmt(k, s, CIf(e, thn, None), StmtP(Some(If(q.e.value, a.st.value, None)), a.s))
  {
    ThenForm(k, s.scope, s.funcs, CIf(e, thn, None));
    hide AtLevel, DenoteCondition, DenoteStmt, Yield, YieldStmt, Neat, NeatStmt, GoesOn, WellFormed, StmtEndsOpen, OpenIf, MayFollow,
      T.AllLexed;
    StmtNotEmpty(k, q.s, thn, a);
    ThenTokens([T.Tok(T.IF, "if")], Yield(e), YieldStmt(thn), a.s.rest);
  }

  lemma ThenTokens(a: seq<T.Tok>, b: seq<T.Tok>, c: seq<T.Tok>, rest: seq<T.Tok>)
    ensures a + b + (c + rest) == a + b + c + rest
  {
  }

  lemma ThenForm(k: FloatReader, scope: Table, funcs: Table, c: CStmt)
    requires c.CIf? && c.els.None?
    ensures (WellFormed(c) <==> Simple(c.cond, true) && WellFormed(c.thn)) && OpenIf(c)
    ensures (StmtEndsOpen(c) <==> StmtEndsOpen(c.thn)) && (NeatStmt(c) <==> Neat(c.cond) && NeatStmt(c.thn))
    ensures forall rest :: MayFollow(c, rest) <==> MayFollow(c.thn, rest) && HeadIsNot(rest, T.ELSE)
    ensures YieldStmt(c) == [T.Tok(T.IF, "if")] + Yield(c.cond) + YieldStmt(c.thn)
    ensures var x, d := DenoteCondition(k, scope, funcs, c.cond), DenoteStmt(k, scope, funcs, c.thn);
      x.Some? && d.Some? ==>
        DenoteStmt(k, scope, funcs, c) == Some(Denoted(If(x.value, d.value.st, None), d.value.scope))
  {
    hide AtLevel, DenoteCondition, Yield, Neat, EndsOpen, Stops;
  }

  lemma ElseAccounts(k: FloatReader, s: PState, e: CExpr, thn: CStmt, els: CStmt, q: ExprP, a: StmtP, b: StmtP)
    requires AccountsTest(k, s, e, q) && AccountsStmt(k, q.s, thn, a) && At(a.s, T.ELSE)
    requires s.rest == [T.Tok(T.IF, "if")] + Yield(e) + q.s.rest
    requires a.s.rest == [T.Tok(T.ELSE, "else")] + Next(a.s).rest && AccountsStmt(k, Next(a.s), els, b)
    ensures AccountsStmt(k, s, CIf(e, thn, Some(els)), StmtP(Some(If(q.e.value, a.st.value, Some(b.st.value))), b.s))
  {
    hide AtLevel, DenoteCondition, Yield, YieldStmt, YieldElse, T.AllLexed, Neat, EndsOpen, DenoteStmt, WellFormed, OpenIf,
      NeatStmt, StmtEndsOpen, Next;
    IfLayout(CIf(e, thn, Some(els)), b.s.rest);
    ElseTokens(els, b.s.rest);
    ElseForm(k, s.scope, s.funcs, CIf(e, thn, Some(els)));
    StmtNotEmpty(k, q.s, thn, a);
    NextState(a.s);
  }

  lemma ElseForm(k: FloatReader, scope: Table, funcs: Table, c: CStmt)
    requires c.CIf? && c.els.Some?
    ensures WellFormed(c) <==>
      Simple(c.cond, true) && WellFormed(c.thn) && WellFormed(c.els.value) && !OpenIf(c.thn) && !StmtEndsOpen(c.thn)
    ensures OpenIf(c) <==> OpenIf(c.els.value)
    ensures StmtEndsOpen(c) <==> StmtEndsOpen(c.els.value)
    ensures NeatStmt(c) <==> Neat(c.cond) && NeatStmt(c.thn) && NeatStmt(c.els.value)
    ensures var x, d := DenoteCondition(k, scope, funcs, c.cond), DenoteStmt(k, scope, funcs, c.thn);
      x.Some? && d.Some? ==>
        var d2 := DenoteStmt(k, d.value.scope, funcs, c.els.value);
        d2.Some? ==>
          DenoteStmt(k, scope, funcs, c) == Some(Denoted(If(x.value, d.value.st, Some(d2.value.st)), d2.value.scope))
  {
    hide AtLevel, DenoteCondition, Neat, EndsOpen;
  }

  lemma ElseTokens(els: CStmt, rest: seq<T.Tok>)
    ensures YieldElse(Some(els)) + rest == [T.Tok(T.ELSE, "else")] + (YieldStmt(els) + rest)
  {
    hide YieldStmt;
  }

  lemma {:induction false} SoundBlock(k: FloatReader, s: PState, r: StmtP) returns (c: CStmt)
    requires At(s, T.BL) && r == ParseStatement(k, s) && CleanStmt(s, r)
    ensures AccountsStmt(k, s, c, r)
    decreases |s.rest|, 10
  {
    hide ParseStatement, ParseStatements, DenoteStmts, YieldStmts, DenoteStmt, YieldStmt, WellFormed;
    hide T.AllLexed, Fixed, AccountsStmt;
    Dispatch(k, s);
    FixedKinds();
    Spelled(s, T.BL);
    var b := ParseStatements(k, Next(s), []);
    var ss := SoundSeq(k, Next(s), [], b);
    Spelled(b.s, T.BR);
    c := CBlock(ss);
    assert b.sts.value[0..] == b.sts.value;
    BlockAccounts(k, s, ss, DenotedSeq(b.sts.value, b.s.scope), r.s.rest);
  }

  lemma BlockAccounts(k: FloatReader, s: PState, ss: seq<CStmt>, d: DenotedSeq, rest: seq<T.Tok>)
    requires InBlock(ss) && T.AllLexed(rest)
    requires s.rest == [T.Tok(T.BL, "{")] + (YieldStmts(ss) + ([T.Tok(T.BR, "}")] + rest))
    requires DenoteStmts(k, s.scope, s.funcs, ss) == Some(d)
    ensures AccountsStmt(k, s, CBlock(ss), StmtP(Some(Block(d.sts)), After(s, NeatStmts(ss), rest).(scope := d.scope)))
  {
    BlockForm(k, s.scope, s.funcs, ss);
    hide YieldStmts, DenoteStmts, YieldStmt, DenoteStmt, WellFormed, OpenIf, T.AllLexed, NeatStmt, NeatStmts,
      StmtEndsOpen, InBlock;
    Rejoin([T.Tok(T.BL, "{")], YieldStmts(ss), [T.Tok(T.BR, "}")], rest);
  }

  lemma Rejoin(a: seq<T.Tok>, b: seq<T.Tok>, c: seq<T.Tok>, d: seq<T.Tok>)
    ensures a + (b + (c + d)) == a + b + c + d
  {
  }

  lemma BlockForm(k: FloatReader, scope: Table, funcs: Table, ss: seq<CStmt>)
    ensures (WellFormed(CBlock(ss)) <==> InBlock(ss)) && (NeatStmt(CBlock(ss)) <==> NeatStmts(ss)) && !StmtEndsOpen(CBlock(ss))
    ensures YieldStmt(CBlock(ss)) == [T.Tok(T.BL, "{")] + YieldStmts(ss) + [T.Tok(T.BR, "}")]
    ensures !OpenIf(CBlock(ss))
    ensures var d := DenoteStmts(k, scope, funcs, ss);
      d.Some? ==> DenoteStmt(k, scope, funcs, CBlock(ss)) == Some(Denoted(Block(d.value.sts), d.value.scope))
  {
  }

  lemma {:induction false} SoundSeq(k: FloatReader, s: PState, acc: seq<Stmt>, b: BlockP) returns (ss: seq<CStmt>)
    requires b == ParseStatements(k, s, acc) && T.AllLexed(s.rest) && b.sts.Some? && !b.s.isError
    ensures InBlock(ss)
    ensures s.rest == YieldStmts(ss) + b.s.rest && T.AllLexed(b.s.rest)
    ensures acc <= b.sts.value
    ensures DenoteStmts(k, s.scope, s.funcs, ss) == Some(DenotedSeq(b.sts.value[|acc|..], b.s.scope))
    ensures b.s == After(s, NeatStmts(ss), b.s.rest).(scope := b.s.scope)
    decreases |s.rest|, 12
  {
    hide ParseStatement, ParseStatements, DenoteStmts, YieldStmts, T.AllLexed, NeatStmts, AccountsStmt, InBlock;
    if At(s, T.BR) {
      ss := [];
      SeqEnds(k, s, acc);
    } else {
      SeqSteps(k, s, acc);
      var r := ParseStatement(k, s);
      var c := SoundStmt(k, s, r);
      StmtLexed(k, s, c, r);
      var more := SoundSeq(k, r.s, acc + [r.st.value], b);
      ss := [c] + more;
      SeqCons(k, s, acc, c, r, more, b);
    }
  }

  lemma SeqEnds(k: FloatReader, s: PState, acc: seq<Stmt>)
    ensures At(s, T.BR) ==> ParseStatements(k, s, acc) == BlockP(Some(acc), s)
    ensures YieldStmts([]) == [] && NeatStmts([]) && InBlock([]) && acc[|acc|..] == []
    ensures DenoteStmts(k, s.scope, s.funcs, []) == Some(DenotedSeq([], s.scope))
  {
    hide ParseStatement;
  }

  lemma SeqSteps(k: FloatReader, s: PState, acc: seq<Stmt>)
    requires !At(s, T.BR) && ParseStatements(k, s, acc).sts.Some? && !ParseStatements(k, s, acc).s.isError
    ensures var r := ParseStatement(k, s);
      && s.rest != [] && r.st.Some? && !r.s.isError
      && ParseStatements(k, s, acc) == ParseStatements(k, r.s, acc + [r.st.value])
  {
    hide ParseStatement;
  }

  lemma StmtLexed(k: FloatReader, s: PState, c: CStmt, r: StmtP)
    requires AccountsStmt(k, s, c, r) && s.rest != []
    ensures T.AllLexed(r.s.rest) && |r.s.rest| < |s.rest|
  {
    StmtStarts(c);
  }

  lemma SeqCons(k: FloatReader, s: PState, acc: seq<Stmt>, c: CStmt, r: StmtP, more: seq<CStmt>, b: BlockP)
    requires AccountsStmt(k, s, c, r) && b.sts.Some? && InBlock(more) && b.s.rest != []
    requires r.s.rest == YieldStmts(more) + b.s.rest && acc + [r.st.value] <= b.sts.value
    requires DenoteStmts(k, r.s.scope, r.s.funcs, more) == Some(DenotedSeq(b.sts.value[|acc + [r.st.value]|..], b.s.scope))
    requires b.s == After(r.s, NeatStmts(more), b.s.rest).(scope := b.s.scope)
    ensures InBlock([c] + more) && s.rest == YieldStmts([c] + more) + b.s.rest
    ensures DenoteStmts(k, s.scope, s.funcs, [c] + more) == Some(DenotedSeq(b.sts.value[|acc|..], b.s.scope))
    ensures b.s == After(s, NeatStmts([c] + more), b.s.rest).(scope := b.s.scope)
  {
    hide DenoteStmt, YieldStmt, WellFormed, T.AllLexed, NeatStmt, StmtEndsOpen;
    var ss := [c] + more;
    assert ss[1..] == more;
    NeatStmtsCons(ss);
    assert b.sts.value[|acc|..] == [r.st.value] + b.sts.value[|acc| + 1..];
  }
}
