/** Completeness of the parser for statements, functions and files. */
module CompleteStatements {
  import opened Wrappers
  import opened Ast
  import opened Parsing
  import opened Grammar
  import opened Completeness
  import T = Tokens

  /** The last expression of a statement does not go on with what follows, which is no semicolon, or
      there is a semicolon already. */
  predicate Halts(c: CExpr, semi: bool, rest: seq<T.Tok>) {
    !semi ==> Stops(c, rest, 0) && HeadIsNot(rest, T.SEMICOLON)
  }

  /** What may follow the statement: nothing that it would go on with.  It takes an `else` for its own
      if it can. */
  predicate MayFollow(c: CStmt, rest: seq<T.Tok>)
    decreases c
  {
    match c
    case CDeclare(_, _, e, semi) => Halts(e, semi, rest)
    case CAssign(_, e, semi) => Halts(e, semi, rest)
    case CCallStmt(_, _, z, semi) => !semi ==> HeadIsNot(rest, T.SEMICOLON) && (z.Ended? ==> rest == [])
    case CPrint(e, semi) => Halts(e, semi, rest)
    case CReturn(e, semi) => Halts(e, semi, rest)
    case CBlock(_) => true
    case CIf(_, a, b) => if b.Some? then MayFollow(b.value, rest) else MayFollow(a, rest) && HeadIsNot(rest, T.ELSE)
    case CWhile(_, a) => MayFollow(a, rest)
    case CDoWhile(_, e) => Stops(e, rest, 0)
  }

  lemma {:induction false} FollowsMay(c: CStmt, rest: seq<T.Tok>)
    requires Follows(rest) && (OpenIf(c) ==> HeadIsNot(rest, T.ELSE)) && (StmtEndsOpen(c) ==> rest == [])
    ensures MayFollow(c, rest)
    decreases c
  {
    hide EndsOpen, GoesOn, Follows, Stops;
    match c
    case CDeclare(_, _, e, _) => FollowsHalts(e, rest);
    case CAssign(_, e, _) => FollowsHalts(e, rest);
    case CCallStmt(f, args, z, _) => FollowsHalts(CBool("True"), rest);
    case CPrint(e, _) => FollowsHalts(e, rest);
    case CReturn(e, _) => FollowsHalts(e, rest);
    case CBlock(_) =>
    case CIf(_, a, b) => FollowsMay(if b.Some? then b.value else a, rest);
    case CWhile(_, a) => FollowsMay(a, rest);
    case CDoWhile(_, e) => FollowsStops(e, rest);
  }

  lemma FollowsHalts(c: CExpr, rest: seq<T.Tok>)
    requires Follows(rest)
    ensures HeadIsNot(rest, T.SEMICOLON) && ((EndsOpen(c) ==> rest == []) ==> Stops(c, rest, 0))
  {
  }

  lemma HaltsStops(c: CExpr, semi: bool, rest: seq<T.Tok>)
    requires Simple(c, semi) && Halts(c, semi, rest)
    ensures Stops(c, YieldSemi(semi) + rest, 0)
  {
    hide AtLevel;
    assert !semi ==> YieldSemi(semi) + rest == rest;
  }

  /** All that is asked of a statement to be parsed from `s`. */
  predicate Parsable(k: FloatReader, s: PState, c: CStmt, d: Denoted, rest: seq<T.Tok>) {
    && WellFormed(c) && s.rest == YieldStmt(c) + rest && MayFollow(c, rest)
    && DenoteStmt(k, s.scope, s.funcs, c) == Some(d)
  }

  function Done(s: PState, d: Denoted, neat: bool, rest: seq<T.Tok>): StmtP {
    StmtP(Some(d.st), After(s, neat, rest).(scope := d.scope))
  }

  lemma FollowsStops(c: CExpr, rest: seq<T.Tok>)
    requires Follows(rest) && (EndsOpen(c) ==> rest == [])
    ensures Stops(c, rest, 0)
  {
  }

  lemma SemicolonDone(r: StmtP, semi: bool, rest: seq<T.Tok>)
    requires r.s.rest == YieldSemi(semi) + rest && (!semi ==> HeadIsNot(rest, T.SEMICOLON))
    ensures Semicolon(r) == StmtP(r.st, r.s.(rest := rest))
  {
    if semi {
      assert Next(r.s).rest == rest;
    }
  }

  /** An expression at the end of a simple statement. */
  lemma CompleteLast(k: FloatReader, s: PState, t: T.Tok, c: CExpr, e: Expr, semi: bool, rest: seq<T.Tok>)
    requires Simple(c, semi) && s.rest == [t] + Yield(c) + YieldSemi(semi) + rest && Halts(c, semi, rest)
    requires Denote(k, s.scope, s.funcs, c) == Some(e)
    ensures ParseExpression(k, s) == ExprP(Some(e), After(s, Neat(c), YieldSemi(semi) + rest))
  {
    hide AtLevel, ParseExpression, Denote, Yield, Neat, EndsOpen, Stops;
    var after := YieldSemi(semi) + rest;
    assert s.rest == [t] + (Yield(c) + after);
    HaltsStops(c, semi, rest);
    CompleteExpression(k, s, t, c, e, after);
  }

  lemma Dispatch(k: FloatReader, s: PState)
    ensures At(s, T.TYPE) ==> ParseStatement(k, s) == Semicolon(ParseDeclaration(k, s))
    ensures At(s, T.SYMBOL) && !At(Next(s), T.PL) ==> ParseStatement(k, s) == Semicolon(ParseAssignment(k, s))
    ensures At(s, T.SYMBOL) && At(Next(s), T.PL) ==> ParseStatement(k, s) == Semicolon(ParseCallStatement(k, s))
    ensures At(s, T.BL) ==> ParseStatement(k, s) == ParseBlock(k, s)
    ensures At(s, T.IF) ==> ParseStatement(k, s) == ParseIf(k, s)
    ensures At(s, T.WHILE) ==> ParseStatement(k, s) == ParseWhile(k, s)
    ensures At(s, T.DO) ==> ParseStatement(k, s) == ParseDoWhile(k, s)
  {
    hide ParseDeclaration, ParseAssignment, ParseCallStatement, ParseBlock, ParseIf, ParseWhile, ParseDoWhile, Semicolon;
  }

  /** What is known of the expression a simple statement ends in. */
  lemma SimpleParts(k: FloatReader, s: PState, c: CStmt, d: Denoted, rest: seq<T.Tok>)
    requires (c.CDeclare? || c.CAssign? || c.CPrint? || c.CReturn?) && Parsable(k, s, c, d, rest)
    ensures var e := if c.CDeclare? || c.CAssign? then c.rhs else c.e;
      && Simple(e, c.semi) && Halts(e, c.semi, rest) && (!c.semi ==> HeadIsNot(rest, T.SEMICOLON))
      && (NeatStmt(c) <==> Neat(e))
      && DenoteStmt(k, s.scope, s.funcs, c) == Some(d) && s.rest == YieldStmt(c) + rest
  {
    hide Neat, AtLevel, Denote, Yield, EndsOpen;
  }

  lemma CompleteDeclare(k: FloatReader, s: PState, c: CStmt, d: Denoted, rest: seq<T.Tok>)
    requires c.CDeclare? && Parsable(k, s, c, d, rest)
    ensures ParseStatement(k, s) == Done(s, d, NeatStmt(c), rest)
  {
    hide AtLevel, ParseExpression, Denote, Yield, ParseStatement, ParseDeclaration, Semicolon, Parsable, DenoteStmt, Simple,
      Halts, NeatStmt, Neat, EndsOpen, YieldStmt, YieldSemi, Next;
    SimpleParts(k, s, c, d, rest);
    DeclareLayout(s, c, rest);
    var eq := T.Tok(T.ASSIGN, "=");
    var tail := [eq] + Yield(c.rhs) + YieldSemi(c.semi) + rest;
    Dispatch(k, s);
    RhsDenotes(k, s, c, d);
    CompleteLast(k, Next(Next(s)), eq, c.rhs, d.st.rhs, c.semi, rest);
    DeclareDone(k, s, c, d, tail, Neat(c.rhs), YieldSemi(c.semi) + rest);
    SemicolonDone(ParseDeclaration(k, s), c.semi, rest);
  }

  lemma DeclareLayout(s: PState, c: CStmt, rest: seq<T.Tok>)
    requires c.CDeclare? && s.rest == YieldStmt(c) + rest
    ensures var tail := [T.Tok(T.ASSIGN, "=")] + Yield(c.rhs) + YieldSemi(c.semi) + rest;
      && s.rest == [T.Tok(T.TYPE, c.ty), T.Tok(T.SYMBOL, c.name)] + tail && At(s, T.TYPE)
      && Next(Next(s)) == s.(rest := tail)
  {
    hide Yield, YieldSemi, Next;
    var tail := [T.Tok(T.ASSIGN, "=")] + Yield(c.rhs) + YieldSemi(c.semi) + rest;
    assert s.rest == [T.Tok(T.TYPE, c.ty), T.Tok(T.SYMBOL, c.name)] + tail;
    TwoTokens(s, T.Tok(T.TYPE, c.ty), T.Tok(T.SYMBOL, c.name), tail);
  }

  lemma TwoTokens(s: PState, a: T.Tok, b: T.Tok, tail: seq<T.Tok>)
    requires s.rest == [a, b] + tail
    ensures Current(s) == a && Next(s).rest == [b] + tail && Next(Next(s)) == s.(rest := tail)
  {
    assert Next(s).rest == [b] + tail;
    assert Next(Next(s)).rest == tail;
  }

  lemma RhsDenotes(k: FloatReader, s: PState, c: CStmt, d: Denoted)
    requires (c.CDeclare? || c.CAssign?) && DenoteStmt(k, s.scope, s.funcs, c) == Some(d)
    ensures d.st.Assign? && Denote(k, s.scope, s.funcs, c.rhs) == Some(d.st.rhs)
  {
    hide Denote;
  }

  lemma DeclareDone(k: FloatReader, s: PState, c: CStmt, d: Denoted, tail: seq<T.Tok>, neat: bool, r: seq<T.Tok>)
    requires c.CDeclare? && DenoteStmt(k, s.scope, s.funcs, c) == Some(d)
    requires s.rest == [T.Tok(T.TYPE, c.ty), T.Tok(T.SYMBOL, c.name)] + tail
    requires Next(Next(s)).rest == tail && tail != [] && tail[0].ty == T.ASSIGN && d.st.Assign?
    requires ParseExpression(k, Next(Next(s))) == ExprP(Some(d.st.rhs), After(s, neat, r))
    ensures ParseDeclaration(k, s) == Done(s, d, neat, r)
  {
    hide ParseExpression, Denote;
  }

  lemma CompleteAssign(k: FloatReader, s: PState, c: CStmt, d: Denoted, rest: seq<T.Tok>)
    requires c.CAssign? && Parsable(k, s, c, d, rest)
    ensures ParseStatement(k, s) == Done(s, d, NeatStmt(c), rest)
  {
    hide AtLevel, ParseExpression, Denote, Yield, ParseStatement, ParseAssignment, Semicolon, Parsable, DenoteStmt, Simple,
      Halts, NeatStmt, Neat, EndsOpen, YieldStmt, YieldSemi, Next;
    SimpleParts(k, s, c, d, rest);
    AssignLayout(s, c, rest);
    var eq := T.Tok(T.ASSIGN, "=");
    var tail := [eq] + Yield(c.rhs) + YieldSemi(c.semi) + rest;
    Dispatch(k, s);
    RhsDenotes(k, s, c, d);
    CompleteLast(k, Next(s), eq, c.rhs, d.st.rhs, c.semi, rest);
    AssignDone(k, s, c, d, tail, Neat(c.rhs), YieldSemi(c.semi) + rest);
    SemicolonDone(ParseAssignment(k, s), c.semi, rest);
  }

  lemma AssignLayout(s: PState, c: CStmt, rest: seq<T.Tok>)
    requires c.CAssign? && s.rest == YieldStmt(c) + rest
    ensures var tail := [T.Tok(T.ASSIGN, "=")] + Yield(c.rhs) + YieldSemi(c.semi) + rest;
      && s.rest == [T.Tok(T.SYMBOL, c.name)] + tail && At(s, T.SYMBOL) && Next(s) == s.(rest := tail) && !At(Next(s), T.PL)
  {
    hide Yield, YieldSemi;
    var tail := [T.Tok(T.ASSIGN, "=")] + Yield(c.rhs) + YieldSemi(c.semi) + rest;
    assert s.rest == [T.Tok(T.SYMBOL, c.name)] + tail;
    assert Next(s).rest == tail;
  }

  lemma AssignDone(k: FloatReader, s: PState, c: CStmt, d: Denoted, tail: seq<T.Tok>, neat: bool, r: seq<T.Tok>)
    requires c.CAssign? && DenoteStmt(k, s.scope, s.funcs, c) == Some(d)
    requires s.rest == [T.Tok(T.SYMBOL, c.name)] + tail
    requires Next(s).rest == tail && tail != [] && tail[0].ty == T.ASSIGN && d.st.Assign?
    requires ParseExpression(k, Next(s)) == ExprP(Some(d.st.rhs), After(s, neat, r))
    ensures ParseAssignment(k, s) == Done(s, d, neat, r)
  {
    hide ParseExpression, Denote;
    assert Touch(s.scope, c.name) == s.scope;
  }

  lemma CompleteCallStmt(k: FloatReader, s: PState, c: CStmt, d: Denoted, rest: seq<T.Tok>)
    requires c.CCallStmt? && Parsable(k, s, c, d, rest)
    ensures ParseStatement(k, s) == Done(s, d, NeatStmt(c), rest)
  {
    hide ParseFuncall, ParseStatement, Denote, Yield, AtLevel, NeatArgs;
    var call := CCall(c.callee, c.args, c.closing);
    CallLevel(c);
    Dispatch(k, s);
    assert s.rest == Yield(call) + (YieldSemi(c.semi) + rest);
    CompleteCall(k, s, call, d.st.call, YieldSemi(c.semi) + rest);
    SemicolonDone(ParseCallStatement(k, s), c.semi, rest);
  }

  lemma CallLevel(c: CStmt)
    requires c.CCallStmt? && WellFormed(c)
    ensures AtLevel(CCall(c.callee, c.args, c.closing), 7)
  {
  }

  lemma CompletePrint(k: FloatReader, s: PState, c: CStmt, d: Denoted, rest: seq<T.Tok>)
    requires c.CPrint? && Parsable(k, s, c, d, rest)
    ensures ParseStatement(k, s) == Done(s, d, NeatStmt(c), rest)
  {
    hide AtLevel, ParseExpression, Denote, Yield, Parsable, Simple, Halts, NeatStmt, Neat, EndsOpen;
    SimpleParts(k, s, c, d, rest);
    CompleteLast(k, s, T.Tok(T.IO_PRINT, "print"), c.e, d.st.e, c.semi, rest);
    SemicolonDone(ParsePrint(k, s), c.semi, rest);
  }

  lemma CompleteReturn(k: FloatReader, s: PState, c: CStmt, d: Denoted, rest: seq<T.Tok>)
    requires c.CReturn? && Parsable(k, s, c, d, rest)
    ensures ParseStatement(k, s) == Done(s, d, NeatStmt(c), rest)
  {
    hide AtLevel, ParseExpression, Denote, Yield, Parsable, Simple, Halts, NeatStmt, Neat, EndsOpen;
    SimpleParts(k, s, c, d, rest);
    CompleteLast(k, s, T.Tok(T.RETURN, "return"), c.e, d.st.e, c.semi, rest);
    SemicolonDone(ParseReturn(k, s), c.semi, rest);
  }

  lemma StmtFollows(c: CStmt, rest: seq<T.Tok>)
    ensures Follows(YieldStmt(c) + rest) && HeadIsNot(YieldStmt(c) + rest, T.ELSE)
  {
    StmtStarts(c);
  }

  lemma CompleteCondition(k: FloatReader, s: PState, t: T.Tok, c: CExpr, e: Expr, rest: seq<T.Tok>)
    requires AtLevel(c, 0) && s.rest == [t] + (Yield(c) + rest) && Stops(c, rest, 0)
    requires DenoteCondition(k, s.scope, s.funcs, c) == Some(e)
    ensures ParseCondition(k, s) == ExprP(Some(e), After(s, Neat(c), rest))
  {
    hide AtLevel, ParseExpression, Denote, Yield;
    CompleteExpression(k, s, t, c, e, rest);
  }

  lemma {:induction false} CompleteStmt(k: FloatReader, s: PState, c: CStmt, d: Denoted, rest: seq<T.Tok>)
    requires Parsable(k, s, c, d, rest)
    ensures ParseStatement(k, s) == Done(s, d, NeatStmt(c), rest)
    decreases c
  {
    hide ParseStatement, Parsable, Done;
    match c
    case CDeclare(_, _, _, _) => CompleteDeclare(k, s, c, d, rest);
    case CAssign(_, _, _) => CompleteAssign(k, s, c, d, rest);
    case CCallStmt(_, _, _, _) => CompleteCallStmt(k, s, c, d, rest);
    case CPrint(_, _) => CompletePrint(k, s, c, d, rest);
    case CReturn(_, _) => CompleteReturn(k, s, c, d, rest);
    case CBlock(_) => CompleteBlock(k, s, c, d, rest);
    case CIf(_, _, _) => CompleteIf(k, s, c, d, rest);
    case CWhile(_, _) => CompleteWhile(k, s, c, d, rest);
    case CDoWhile(_, _) => CompleteDoWhile(k, s, c, d, rest);
  }

  /** What is known of the parts of a compound statement. */
  lemma WhileParts(k: FloatReader, s: PState, c: CStmt, d: Denoted, rest: seq<T.Tok>)
    requires c.CWhile? && Parsable(k, s, c, d, rest)
    ensures d.st.While? && Simple(c.cond, true) && (NeatStmt(c) <==> Neat(c.cond) && NeatStmt(c.body))
    ensures DenoteCondition(k, s.scope, s.funcs, c.cond) == Some(d.st.cond)
    ensures s.rest == [T.Tok(T.WHILE, "while")] + (Yield(c.cond) + (YieldStmt(c.body) + rest))
    ensures forall neat ::
      Parsable(k, After(s, neat, YieldStmt(c.body) + rest), c.body, Denoted(d.st.body, d.scope), rest)
  {
    hide AtLevel, Yield, DenoteCondition, Neat;
  }

  lemma {:induction false} CompleteWhile(k: FloatReader, s: PState, c: CStmt, d: Denoted, rest: seq<T.Tok>)
    requires c.CWhile? && Parsable(k, s, c, d, rest)
    ensures ParseStatement(k, s) == Done(s, d, NeatStmt(c), rest)
    decreases c, 0
  {
    hide Parsable, Stops, ParseCondition, ParseStatement, DenoteCondition, Yield, YieldStmt, AtLevel, DenoteStmt,
      WellFormed, EndsOpen, Neat, NeatStmt;
    WhileParts(k, s, c, d, rest);
    var after := YieldStmt(c.body) + rest;
    StmtFollows(c.body, rest);
    FollowsStops(c.cond, after);
    CompleteCondition(k, s, T.Tok(T.WHILE, "while"), c.cond, d.st.cond, after);
    CompleteStmt(k, After(s, Neat(c.cond), after), c.body, Denoted(d.st.body, d.scope), rest);
    Dispatch(k, s);
  }

  lemma DoLayout(s: PState, c: CStmt, rest: seq<T.Tok>)
    requires c.CDoWhile? && s.rest == YieldStmt(c) + rest
    ensures At(s, T.DO) && Next(s).rest == YieldStmt(c.body) + ([T.Tok(T.WHILE, "while")] + (Yield(c.cond) + rest))
  {
    hide Yield;
    assert Next(s).rest == YieldStmt(c.body) + ([T.Tok(T.WHILE, "while")] + (Yield(c.cond) + rest));
  }

  lemma DoFollows(c: CStmt, rest: seq<T.Tok>)
    requires c.CDoWhile? && WellFormed(c) && MayFollow(c, rest)
    ensures MayFollow(c.body, [T.Tok(T.WHILE, "while")] + (Yield(c.cond) + rest)) && Stops(c.cond, rest, 0)
  {
    hide Yield, Stops;
    FollowsMay(c.body, [T.Tok(T.WHILE, "while")] + (Yield(c.cond) + rest));
  }

  lemma DoParts(k: FloatReader, s: PState, c: CStmt, d: Denoted, rest: seq<T.Tok>)
    requires c.CDoWhile? && Parsable(k, s, c, d, rest)
    ensures d.st.DoWhile? && AtLevel(c.cond, 0) && At(s, T.DO) && Stops(c.cond, rest, 0)
    ensures NeatStmt(c) <==> NeatStmt(c.body) && Neat(c.cond)
    ensures DenoteCondition(k, d.scope, s.funcs, c.cond) == Some(d.st.cond)
    ensures var after := [T.Tok(T.WHILE, "while")] + (Yield(c.cond) + rest);
      Parsable(k, Next(s), c.body, Denoted(d.st.body, d.scope), after)
  {
    hide AtLevel, Yield, DenoteCondition, Neat, Stops, GoesOn, MayFollow;
    DoLayout(s, c, rest);
    DoFollows(c, rest);
  }

  lemma {:induction false} CompleteDoWhile(k: FloatReader, s: PState, c: CStmt, d: Denoted, rest: seq<T.Tok>)
    requires c.CDoWhile? && Parsable(k, s, c, d, rest)
    ensures ParseStatement(k, s) == Done(s, d, NeatStmt(c), rest)
    decreases c, 0
  {
    hide Parsable, Stops, ParseCondition, ParseStatement, DenoteCondition, Yield, YieldStmt, AtLevel, DenoteStmt,
      WellFormed, Neat, NeatStmt;
    DoParts(k, s, c, d, rest);
    var while_ := T.Tok(T.WHILE, "while");
    var after := [while_] + (Yield(c.cond) + rest);
    CompleteStmt(k, Next(s), c.body, Denoted(d.st.body, d.scope), after);
    CompleteCondition(k, After(s, NeatStmt(c.body), after).(scope := d.scope), while_, c.cond, d.st.cond, rest);
    Dispatch(k, s);
  }

  /** The condition and the first branch of an `if`, which denotes `d1`. */
  lemma IfParts(k: FloatReader, s: PState, c: CStmt, d: Denoted, rest: seq<T.Tok>) returns (d1: Denoted)
    requires c.CIf? && Parsable(k, s, c, d, rest)
    ensures d.st.If? && Simple(c.cond, true) && DenoteCondition(k, s.scope, s.funcs, c.cond) == Some(d.st.cond)
    ensures NeatStmt(c) <==> Neat(c.cond) && NeatStmt(c.thn) && (c.els.Some? ==> NeatStmt(c.els.value))
    ensures c.els.None? ==> d.st.els.None? && d1.scope == d.scope && HeadIsNot(rest, T.ELSE)
    ensures c.els.Some? ==> d.st.els.Some?
    ensures d1.st == d.st.thn && DenoteStmt(k, s.scope, s.funcs, c.thn) == Some(d1)
    ensures var tail := YieldElse(c.els) + rest;
      && s.rest == [T.Tok(T.IF, "if")] + (Yield(c.cond) + (YieldStmt(c.thn) + tail))
      && MayFollow(c.thn, tail) && WellFormed(c.thn)
  {
    hide AtLevel, Yield, DenoteCondition, Stops, Neat, EndsOpen, MayFollow;
    d1 := DenoteStmt(k, s.scope, s.funcs, c.thn).value;
    IfLayout(c, rest);
    ThenFollows(c, rest);
  }

  lemma ThenFollows(c: CStmt, rest: seq<T.Tok>)
    requires c.CIf? && WellFormed(c) && MayFollow(c, rest)
    ensures MayFollow(c.thn, YieldElse(c.els) + rest)
    ensures if c.els.None? then HeadIsNot(rest, T.ELSE) else MayFollow(c.els.value, rest)
  {
    if c.els.Some? {
      ElseFollows(c.els.value, rest);
      FollowsMay(c.thn, YieldElse(c.els) + rest);
    } else {
      assert YieldElse(c.els) + rest == rest;
    }
  }

  /** The second branch. */
  lemma ElseParts(k: FloatReader, s: PState, c: CStmt, d: Denoted, rest: seq<T.Tok>, d1: Denoted, s1: PState)
    requires c.CIf? && Parsable(k, s, c, d, rest) && c.els.Some? && DenoteStmt(k, s.scope, s.funcs, c.thn) == Some(d1)
    requires s1.scope == d1.scope && s1.funcs == s.funcs && s1.rest == YieldStmt(c.els.value) + rest
    ensures d.st.If? && d.st.els.Some? && Parsable(k, s1, c.els.value, Denoted(d.st.els.value, d.scope), rest)
  {
    hide AtLevel, Yield, DenoteCondition, Stops, EndsOpen;
  }

  lemma IfLayout(c: CStmt, rest: seq<T.Tok>)
    requires c.CIf?
    ensures YieldStmt(c) + rest ==
      [T.Tok(T.IF, "if")] + (Yield(c.cond) + (YieldStmt(c.thn) + (YieldElse(c.els) + rest)))
  {
    hide Yield;
  }

  lemma ElseFollows(c: CStmt, rest: seq<T.Tok>)
    ensures Follows(YieldElse(Some(c)) + rest)
  {
  }

  lemma {:induction false} CompleteThen(k: FloatReader, s: PState, c: CStmt, d: Denoted, rest: seq<T.Tok>, d1: Denoted)
    requires c.CIf? && d.st.If? && Simple(c.cond, true) && DenoteCondition(k, s.scope, s.funcs, c.cond) == Some(d.st.cond)
    requires DenoteStmt(k, s.scope, s.funcs, c.thn) == Some(d1) && WellFormed(c.thn)
    requires var tail := YieldElse(c.els) + rest;
      && s.rest == [T.Tok(T.IF, "if")] + (Yield(c.cond) + (YieldStmt(c.thn) + tail)) && MayFollow(c.thn, tail)
    ensures At(s, T.IF)
    ensures var tail := YieldElse(c.els) + rest;
      var s1 := After(s, Neat(c.cond), YieldStmt(c.thn) + tail);
      && ParseCondition(k, s) == ExprP(Some(d.st.cond), s1)
      && ParseStatement(k, s1) == Done(s1, d1, NeatStmt(c.thn), tail)
    decreases c, 0
  {
    hide Stops, ParseCondition, ParseStatement, DenoteCondition, Yield, YieldStmt, AtLevel, EndsOpen, Neat, NeatStmt,
      MayFollow, WellFormed, DenoteStmt;
    var tail := YieldElse(c.els) + rest;
    var after := YieldStmt(c.thn) + tail;
    StmtFollows(c.thn, tail);
    FollowsStops(c.cond, after);
    CompleteCondition(k, s, T.Tok(T.IF, "if"), c.cond, d.st.cond, after);
    CompleteStmt(k, After(s, Neat(c.cond), after), c.thn, d1, tail);
  }

  lemma {:induction false} CompleteIf(k: FloatReader, s: PState, c: CStmt, d: Denoted, rest: seq<T.Tok>)
    requires c.CIf? && Parsable(k, s, c, d, rest)
    ensures ParseStatement(k, s) == Done(s, d, NeatStmt(c), rest)
    decreases c, 1
  {
    hide Parsable, ParseCondition, ParseStatement, ParseIf, DenoteCondition, Yield, YieldStmt, YieldElse, DenoteStmt,
      WellFormed, Simple, Neat, NeatStmt, MayFollow, HeadIsNot, Next;
    var d1 := IfParts(k, s, c, d, rest);
    CompleteThen(k, s, c, d, rest, d1);
    Dispatch(k, s);
    var tail := YieldElse(c.els) + rest;
    var s0 := After(s, Neat(c.cond), YieldStmt(c.thn) + tail);
    var s1 := Done(s0, d1, NeatStmt(c.thn), tail).s;
    IfSteps(k, s, ExprP(Some(d.st.cond), s0), StmtP(Some(d1.st), s1));
    ElseLayout(s1, c.els, rest);
    if c.els.Some? {
      ElseParts(k, s, c, d, rest, d1, Next(s1));
      CompleteStmt(k, Next(s1), c.els.value, Denoted(d.st.els.value, d.scope), rest);
    }
  }

  lemma ElseLayout(s: PState, els: Option<CStmt>, rest: seq<T.Tok>)
    requires s.rest == YieldElse(els) + rest
    ensures if els.Some? then At(s, T.ELSE) && Next(s) == s.(rest := YieldStmt(els.value) + rest)
            else s.rest == rest && (HeadIsNot(rest, T.ELSE) ==> !At(s, T.ELSE))
  {
    hide YieldStmt;
    if els.Some? {
      assert Next(s).rest == YieldStmt(els.value) + rest;
    }
  }

  lemma IfSteps(k: FloatReader, s: PState, c: ExprP, a: StmtP)
    requires ParseCondition(k, s) == c && c.e.Some? && ParseStatement(k, c.s) == a && a.st.Some?
    ensures !At(a.s, T.ELSE) ==> ParseIf(k, s) == StmtP(Some(If(c.e.value, a.st.value, None)), a.s)
    ensures var b := ParseStatement(k, Next(a.s));
      At(a.s, T.ELSE) && b.st.Some? ==>
        ParseIf(k, s) == StmtP(Some(If(c.e.value, a.st.value, b.st)), b.s)
  {
    hide ParseCondition, ParseStatement;
  }

  /** Statements inside braces. */
  predicate InBlock(ss: seq<CStmt>) {
    forall i :: 0 <= i < |ss| ==> WellFormed(ss[i]) && !StmtEndsOpen(ss[i])
  }

  lemma BlockParts(k: FloatReader, s: PState, c: CStmt, d: Denoted, rest: seq<T.Tok>)
    requires c.CBlock? && Parsable(k, s, c, d, rest)
    ensures d.st.Block? && At(s, T.BL) && InBlock(c.stmts) && (NeatStmt(c) <==> NeatStmts(c.stmts))
    ensures Next(s).rest == YieldStmts(c.stmts) + ([T.Tok(T.BR, "}")] + rest)
    ensures DenoteStmts(k, s.scope, s.funcs, c.stmts) == Some(DenotedSeq(d.st.stmts, d.scope))
  {
    hide YieldStmts, DenoteStmts;
    assert Next(s).rest == YieldStmts(c.stmts) + ([T.Tok(T.BR, "}")] + rest);
  }

  lemma {:induction false} CompleteBlock(k: FloatReader, s: PState, c: CStmt, d: Denoted, rest: seq<T.Tok>)
    requires c.CBlock? && Parsable(k, s, c, d, rest)
    ensures ParseStatement(k, s) == Done(s, d, NeatStmt(c), rest)
    decreases c, 0
  {
    hide Parsable, ParseStatement, ParseStatements, YieldStmts, DenoteStmts, WellFormed, DenoteStmt, InBlock,
      NeatStmt, NeatStmts;
    BlockParts(k, s, c, d, rest);
    var after := [T.Tok(T.BR, "}")] + rest;
    CompleteSeq(k, Next(s), c.stmts, DenotedSeq(d.st.stmts, d.scope), [], rest);
    assert [] + d.st.stmts == d.st.stmts;
    assert Next(After(s, NeatStmts(c.stmts), after).(scope := d.scope)).rest == rest;
    Dispatch(k, s);
  }

  lemma SeqParts(k: FloatReader, scope: Table, funcs: Table, ss: seq<CStmt>)
    requires ss != [] && DenoteStmts(k, scope, funcs, ss).Some?
    ensures var d := DenoteStmts(k, scope, funcs, ss).value;
      && DenoteStmt(k, scope, funcs, ss[0]).Some?
      && var d1 := DenoteStmt(k, scope, funcs, ss[0]).value;
      && d.sts != [] && d.sts[0] == d1.st
      && DenoteStmts(k, d1.scope, funcs, ss[1..]) == Some(DenotedSeq(d.sts[1..], d.scope))
  {
    hide DenoteStmt;
  }

  /** The statements up to the closing brace. */
  function BlockDone(s: PState, acc: seq<Stmt>, d: DenotedSeq, neat: bool, rest: seq<T.Tok>): BlockP {
    BlockP(Some(acc + d.sts), After(s, neat, [T.Tok(T.BR, "}")] + rest).(scope := d.scope))
  }

  lemma NoStatements(k: FloatReader, s: PState, d: DenotedSeq, acc: seq<Stmt>, rest: seq<T.Tok>)
    requires s.rest == YieldStmts([]) + ([T.Tok(T.BR, "}")] + rest)
    requires DenoteStmts(k, s.scope, s.funcs, []) == Some(d)
    ensures ParseStatements(k, s, acc) == BlockDone(s, acc, d, true, rest)
  {
    hide ParseStatement;
    assert acc + d.sts == acc && s.rest == [T.Tok(T.BR, "}")] + rest;
  }

  /** The first statement of a sequence and what is left. */
  lemma SeqStep(k: FloatReader, s: PState, ss: seq<CStmt>, d: DenotedSeq, acc: seq<Stmt>, rest: seq<T.Tok>)
    requires ss != [] && WellFormed(ss[0]) && s.rest == YieldStmts(ss) + rest
    requires DenoteStmts(k, s.scope, s.funcs, ss) == Some(d)
    ensures DenoteStmt(k, s.scope, s.funcs, ss[0]).Some?
    ensures var d1 := DenoteStmt(k, s.scope, s.funcs, ss[0]).value;
      && d.sts != [] && d.sts[0] == d1.st && acc + d.sts == acc + [d1.st] + d.sts[1..]
      && DenoteStmts(k, d1.scope, s.funcs, ss[1..]) == Some(DenotedSeq(d.sts[1..], d.scope))
    ensures s.rest == YieldStmt(ss[0]) + (YieldStmts(ss[1..]) + rest)
    ensures var r := ParseStatement(k, s);
      r.st.Some? ==> ParseStatements(k, s, acc) == ParseStatements(k, r.s, acc + [r.st.value])
  {
    hide WellFormed, ParseStatement, ParseStatements, DenoteStmt, DenoteStmts, YieldStmt, YieldStmts;
    SeqParts(k, s.scope, s.funcs, ss);
    StmtStarts(ss[0]);
    var d1 := DenoteStmt(k, s.scope, s.funcs, ss[0]).value;
    assert acc + d.sts == acc + [d1.st] + d.sts[1..];
    YieldsFirst(ss, rest);
    StatementsGoOn(k, s, acc);
  }

  lemma YieldsFirst(ss: seq<CStmt>, rest: seq<T.Tok>)
    requires ss != []
    ensures YieldStmts(ss) + rest == YieldStmt(ss[0]) + (YieldStmts(ss[1..]) + rest)
  {
    hide YieldStmt;
  }

  lemma StatementsGoOn(k: FloatReader, s: PState, acc: seq<Stmt>)
    ensures var r := ParseStatement(k, s);
      StartsStmt(Current(s).ty) && r.st.Some? ==> ParseStatements(k, s, acc) == ParseStatements(k, r.s, acc + [r.st.value])
  {
    hide ParseStatement;
  }

  lemma {:induction false} CompleteSeq(k: FloatReader, s: PState, ss: seq<CStmt>, d: DenotedSeq, acc: seq<Stmt>, rest: seq<T.Tok>)
    requires InBlock(ss) && s.rest == YieldStmts(ss) + ([T.Tok(T.BR, "}")] + rest)
    requires DenoteStmts(k, s.scope, s.funcs, ss) == Some(d)
    ensures ParseStatements(k, s, acc) == BlockDone(s, acc, d, NeatStmts(ss), rest)
    decreases ss
  {
    hide WellFormed, ParseStatement, DenoteStmt, YieldStmt, Follows, DenoteStmts, YieldStmts, ParseStatements,
      NeatStmt, StmtEndsOpen;
    var close := [T.Tok(T.BR, "}")] + rest;
    if ss == [] {
      NoStatements(k, s, d, acc, rest);
    } else {
      CloseFollows(rest);
      var after := YieldStmts(ss[1..]) + close;
      SeqStep(k, s, ss, d, acc, close);
      var d1 := DenoteStmt(k, s.scope, s.funcs, ss[0]).value;
      SeqFollows(ss[1..], close);
      FollowsMay(ss[0], after);
      CompleteStmt(k, s, ss[0], d1, after);
      var s1 := Done(s, d1, NeatStmt(ss[0]), after).s;
      CompleteSeq(k, s1, ss[1..], DenotedSeq(d.sts[1..], d.scope), acc + [d1.st], rest);
      NeatStmtsCons(ss);
    }
  }

  lemma NeatStmtsCons(ss: seq<CStmt>)
    requires ss != []
    ensures NeatStmts(ss) <==> NeatStmt(ss[0]) && NeatStmts(ss[1..])
  {
    hide NeatStmt;
    assert forall i :: 0 < i < |ss| ==> ss[i] == ss[1..][i - 1];
  }

  lemma CloseFollows(rest: seq<T.Tok>)
    ensures Follows([T.Tok(T.BR, "}")] + rest)
  {
  }

  lemma SeqFollows(ss: seq<CStmt>, rest: seq<T.Tok>)
    requires Follows(rest) && HeadIsNot(rest, T.ELSE)
    ensures Follows(YieldStmts(ss) + rest) && HeadIsNot(YieldStmts(ss) + rest, T.ELSE)
  {
    hide YieldStmt;
    if ss != [] {
      StmtStarts(ss[0]);
    }
  }
}
