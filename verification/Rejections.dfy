/** What the grammar derives and has no meaning is an error: a name that is not declared or declared
    twice, an unknown function, operands or conditions of the wrong type, a literal out of range.
    With the completeness of the parser that makes its error flag exact on derivable tokens. */
module Rejections {
  import opened Wrappers
  import opened Ast
  import opened Parsing
  import opened Grammar
  import opened Completeness
  import opened CompleteStatements
  import opened CompleteFiles
  import ParserSoundness
  import T = Tokens

  // ----- expressions -----

  lemma {:induction false} FailLevel(k: FloatReader, s: PState, c: CExpr, level: nat, rest: seq<T.Tok>)
    requires level <= 7 && AtLevel(c, level) && Before(s, c, rest) && Stops(c, rest, level)
    requires Denote(k, s.scope, s.funcs, c).None?
    ensures ParseLevel(k, s, level).s.isError
    decreases c, 10 - level
  {
    hide Yield, Denote, ParseLevel, Stops, AtLevel, Advances;
    FactorLevel(k, s);
    if level == 7 {
      FailFactor(k, s, c, rest);
    } else if level == 6 {
      FailUnary(k, s, c, rest);
    } else if c.CBinary? && c.level == level {
      FailBinary(k, s, c, rest);
    } else {
      TighterLevel(c, level);
      TighterStops(c, rest, level);
      FailLevel(k, s, c, level + 1, rest);
      ParserSoundness.LevelSteps(k, s, level);
    }
  }

  lemma TighterLevel(c: CExpr, level: nat)
    requires AtLevel(c, level) && level < 6 && !(c.CBinary? && c.level == level)
    ensures AtLevel(c, level + 1)
  {
  }

  lemma {:induction false} FailBinary(k: FloatReader, s: PState, c: CExpr, rest: seq<T.Tok>)
    requires c.CBinary? && AtLevel(c, c.level) && Before(s, c, rest) && Stops(c, rest, c.level)
    requires Denote(k, s.scope, s.funcs, c).None?
    ensures ParseLevel(k, s, c.level).s.isError
    decreases c, 0
  {
    hide ParseLevel, Denote, Yield, AtLevel, Stops, GoesOn, OperandsFit, Combine, LevelToken;
    BinaryFails(k, s, c);
    var tail := Yield(c.rhs) + rest;
    var rest1 := [T.Tok(LevelToken(c.level), c.lexeme)] + tail;
    BinaryLayout(c, rest);
    OperatorStops(c, tail);
    RightStops(c, rest);
    var a := Denote(k, s.scope, s.funcs, c.lhs);
    if a.None? {
      FailLevel(k, s, c.lhs, c.level + 1, rest1);
      ParserSoundness.LevelSteps(k, s, c.level);
    } else {
      CompleteLevel(k, s, c.lhs, c.level + 1, a.value, rest1);
      var s1 := After(s, Neat(c.lhs), rest1);
      assert Next(s1) == After(s, Neat(c.lhs), tail);
      LevelUp(k, s, c.level);
      CombineError(c.level, c.lexeme, a.value, ParseLevel(k, Next(s1), c.level));
      var b := Denote(k, s.scope, s.funcs, c.rhs);
      if b.None? {
        FailLevel(k, Next(s1), c.rhs, c.level, rest);
      } else {
        CompleteLevel(k, Next(s1), c.rhs, c.level, b.value, rest);
      }
    }
  }

  /** Where an operator is an error. */
  lemma CombineError(level: nat, lexeme: string, a: Expr, r: ExprP)
    requires level < 6
    ensures r.s.isError || (r.e.Some? && !OperandsFit(level, a.Type(), r.e.value.Type())) ==>
      Combine(level, lexeme, a, r).s.isError
  {
    hide OperandsFit;
  }

  lemma BinaryFails(k: FloatReader, s: PState, c: CExpr)
    requires c.CBinary? && AtLevel(c, c.level) && Denote(k, s.scope, s.funcs, c).None?
    ensures c.level < 6 && AtLevel(c.lhs, c.level + 1) && AtLevel(c.rhs, c.level)
    ensures var a, b := Denote(k, s.scope, s.funcs, c.lhs), Denote(k, s.scope, s.funcs, c.rhs);
      a.Some? && b.Some? ==> !OperandsFit(c.level, a.value.Type(), b.value.Type())
  {
  }

  lemma {:induction false} FailUnary(k: FloatReader, s: PState, c: CExpr, rest: seq<T.Tok>)
    requires AtLevel(c, 6) && Before(s, c, rest) && Stops(c, rest, 6)
    requires Denote(k, s.scope, s.funcs, c).None?
    ensures ParseUnary(k, s).s.isError
    decreases c, 2
  {
    hide ParseFactor, ParseLevel, Advances, UnaryFits;
    if c.CUnary? {
      assert Next(s).rest == Yield(c.sub) + rest;
      var a := Denote(k, s.scope, s.funcs, c.sub);
      if a.None? {
        FailUnary(k, Next(s), c.sub, rest);
      } else {
        CompleteUnary(k, Next(s), c.sub, a.value, rest);
      }
    } else {
      YieldStarts(c, 7);
      TighterStops(c, rest, 6);
      FailFactor(k, s, c, rest);
    }
  }

  lemma {:induction false} FailFactor(k: FloatReader, s: PState, c: CExpr, rest: seq<T.Tok>)
    requires AtLevel(c, 7) && Before(s, c, rest) && Stops(c, rest, 7)
    requires Denote(k, s.scope, s.funcs, c).None?
    ensures ParseFactor(k, s).s.isError
    decreases c, 1
  {
    hide Yield, Denote, ParseFuncall, ParseLevel, AtLevel, ParseFactor, GoesOn;
    InnerLevel(c);
    match c
    case CParen(_) => FailParen(k, s, c, rest);
    case CCall(_, _, _) => FailCall(k, s, c, rest);
    case _ => FailAtom(k, s, c, rest);
  }

  lemma FailAtom(k: FloatReader, s: PState, c: CExpr, rest: seq<T.Tok>)
    requires c.CVar? || c.CBool? || c.CInt? || c.CFloat?
    requires Before(s, c, rest) && Stops(c, rest, 7) && Denote(k, s.scope, s.funcs, c).None?
    ensures ParseFactor(k, s).s.isError
  {
    hide ParseFuncall, ParseLevel, ReadInt;
    assert Next(s).rest == rest;
  }

  lemma {:induction false} FailParen(k: FloatReader, s: PState, c: CExpr, rest: seq<T.Tok>)
    requires c.CParen? && AtLevel(c.inner, 0) && !EndsOpen(c.inner) && Before(s, c, rest)
    requires Denote(k, s.scope, s.funcs, c).None?
    ensures ParseFactor(k, s).s.isError
    decreases c, 0
  {
    hide ParseFuncall, ParseLevel, AtLevel, Advances;
    var after := [CLOSE] + rest;
    assert Next(s).rest == Yield(c.inner) + after;
    FailLevel(k, Next(s), c.inner, 0, after);
  }

  lemma {:induction false} FailCall(k: FloatReader, s: PState, c: CExpr, rest: seq<T.Tok>)
    requires c.CCall? && AtLevel(c, 7) && Before(s, c, rest) && (EndsOpen(c) ==> rest == [])
    requires Denote(k, s.scope, s.funcs, c).None?
    ensures At(s, T.SYMBOL) && At(Next(s), T.PL)
    ensures ParseFuncall(k, s).s.isError && ParseFactor(k, s).s.isError
    decreases c, 0
  {
    hide ParseArgs, AtLevel, Denote, DenoteArgs, YieldArgs, YieldClosing, MayClose, ParseLevel, ParseFuncall, ParseFactor, Found;
    CallFails(k, s, c);
    CallLayout(s, c, rest);
    FactorCall(k, s);
    FuncallError(k, s);
    if Found(s.funcs, c.callee).Some? {
      CallArgsLevel(c);
      FailArgList(k, s, c.args, c.closing, rest);
    }
  }

  lemma CallLayout(s: PState, c: CExpr, rest: seq<T.Tok>)
    requires c.CCall? && Before(s, c, rest)
    ensures At(s, T.SYMBOL) && Current(s).lexeme == c.callee && At(Next(s), T.PL) && s.rest != []
    ensures Next(s).rest == [OPEN] + (YieldArgs(c.args) + (YieldClosing(c.closing) + rest))
    ensures EndsOpen(c) <== c.closing.Ended?
  {
    hide YieldArgs, YieldClosing;
    assert Next(s).rest == [OPEN] + (YieldArgs(c.args) + (YieldClosing(c.closing) + rest));
  }

  /** Where a call is an error. */
  lemma FuncallError(k: FloatReader, s: PState)
    requires At(s, T.SYMBOL) && At(Next(s), T.PL)
    ensures Found(s.funcs, Current(s).lexeme).None? || ParseArgs(k, s).s.isError ==> ParseFuncall(k, s).s.isError
  {
    hide ParseArgs;
    assert Found(s.funcs, Current(s).lexeme).Some? ==> Touch(s.funcs, Current(s).lexeme) == s.funcs;
  }

  lemma CallFails(k: FloatReader, s: PState, c: CExpr)
    requires c.CCall? && Denote(k, s.scope, s.funcs, c).None?
    ensures Found(s.funcs, c.callee).Some? ==> DenoteArgs(k, s.scope, s.funcs, c.args).None?
  {
  }

  lemma {:induction false} FailArgList(k: FloatReader, s: PState, args: seq<CExpr>, z: Closing, rest: seq<T.Tok>)
    requires (forall i :: 0 <= i < |args| ==> AtLevel(args[i], 0)) && MayClose(args, z) && (z.Ended? ==> rest == [])
    requires s.rest != [] && Next(s).rest == [OPEN] + (YieldArgs(args) + (YieldClosing(z) + rest))
    requires DenoteArgs(k, s.scope, s.funcs, args).None?
    ensures ParseArgs(k, s).s.isError
    decreases args, 1
  {
    NoArgs(k, s.scope, s.funcs);
    hide ParseArgsLoop, AtLevel, DenoteArgs, Advances;
    var s1 := Next(s);
    var after := YieldClosing(z) + rest;
    ArgsStart(args);
    assert Next(s1).rest == YieldArgs(args) + after;
    assert Next(s1).rest[0] == YieldArgs(args)[0];
    FailArgs(k, s1, args, z, OPEN, [], rest);
  }

  lemma {:induction false} FailExpression(k: FloatReader, s: PState, t: T.Tok, c: CExpr, rest: seq<T.Tok>)
    requires AtLevel(c, 0) && s.rest == [t] + (Yield(c) + rest) && Stops(c, rest, 0)
    requires Denote(k, s.scope, s.funcs, c).None?
    ensures ParseExpression(k, s).s.isError
    decreases c, 11
  {
    hide ParseLevel, AtLevel, Denote, Advances, Stops;
    YieldStarts(c, 0);
    assert Next(s).rest == Yield(c) + rest;
    FailLevel(k, Next(s), c, 0, rest);
  }

  lemma {:induction false} FailArgs(k: FloatReader, s: PState, args: seq<CExpr>, z: Closing, sep: T.Tok,
                                    acc: seq<Expr>, rest: seq<T.Tok>)
    requires args != [] && (forall i :: 0 <= i < |args| ==> AtLevel(args[i], 0)) && MayClose(args, z)
    requires s.rest == [sep] + (YieldArgs(args) + (YieldClosing(z) + rest)) && sep.ty != T.PR && (z.Ended? ==> rest == [])
    requires DenoteArgs(k, s.scope, s.funcs, args).None?
    ensures ParseArgsLoop(k, s, acc).s.isError
    decreases args, 0
  {
    hide ParseExpression, AtLevel, Denote, DenoteArgs, Yield, YieldArgs, YieldClosing, ParseArgsLoop, MayClose, Stops, Advances;
    var after := YieldClosing(z) + rest;
    ClosingStops(args, z, rest);
    FirstFails(k, s, args);
    FirstLayout(args, after);
    LoopKeepsError(k, s, acc);
    var tail := if |args| == 1 then after else [COMMA_TOK] + (YieldArgs(args[1..]) + after);
    var e := Denote(k, s.scope, s.funcs, args[0]);
    if e.None? {
      FailExpression(k, s, sep, args[0], tail);
    } else {
      CompleteExpression(k, s, sep, args[0], e.value, tail);
      FailArgs(k, After(s, Neat(args[0]), tail), args[1..], z, COMMA_TOK, acc + [e.value], rest);
      LoopMore(k, s, acc);
    }
  }

  lemma FirstFails(k: FloatReader, s: PState, args: seq<CExpr>)
    requires args != [] && DenoteArgs(k, s.scope, s.funcs, args).None?
    ensures Denote(k, s.scope, s.funcs, args[0]).Some? ==> |args| > 1 && DenoteArgs(k, s.scope, s.funcs, args[1..]).None?
  {
    hide Denote;
    if |args| == 1 {
      NoArgs(k, s.scope, s.funcs);
      assert args[1..] == [];
    }
  }

  lemma FirstLayout(args: seq<CExpr>, after: seq<T.Tok>)
    requires args != []
    ensures if |args| == 1 then YieldArgs(args) == Yield(args[0])
            else YieldArgs(args) + after == Yield(args[0]) + ([COMMA_TOK] + (YieldArgs(args[1..]) + after))
  {
    hide Yield;
    if |args| > 1 {
      Regroup(Yield(args[0]), COMMA_TOK, YieldArgs(args[1..]), after);
    }
  }

  lemma Regroup(a: seq<T.Tok>, t: T.Tok, b: seq<T.Tok>, c: seq<T.Tok>)
    ensures a + [t] + b + c == a + ([t] + (b + c))
  {
  }

  lemma LoopKeepsError(k: FloatReader, s: PState, acc: seq<Expr>)
    requires !At(s, T.PR)
    ensures ParseExpression(k, s).s.isError ==> ParseArgsLoop(k, s, acc).s.isError
  {
    hide ParseExpression;
  }

  // ----- statements -----

  /** A statement that has no meaning where it stands. */
  ghost predicate Meaningless(k: FloatReader, s: PState, c: CStmt, rest: seq<T.Tok>) {
    && WellFormed(c) && s.rest == YieldStmt(c) + rest && MayFollow(c, rest)
    && DenoteStmt(k, s.scope, s.funcs, c).None?
  }

  /** The last expression of a simple statement. */
  lemma FailLast(k: FloatReader, s: PState, t: T.Tok, c: CExpr, semi: bool, rest: seq<T.Tok>)
    requires Simple(c, semi) && s.rest == [t] + Yield(c) + YieldSemi(semi) + rest && Halts(c, semi, rest)
    ensures var r := ParseExpression(k, s);
      match Denote(k, s.scope, s.funcs, c)
      case None => r.s.isError
      case Some(e) => r == ExprP(Some(e), After(s, Neat(c), YieldSemi(semi) + rest))
  {
    hide AtLevel, ParseExpression, Denote, Yield, Neat, EndsOpen, Stops;
    HaltsStops(c, semi, rest);
    var after := YieldSemi(semi) + rest;
    assert s.rest == [t] + (Yield(c) + after);
    match Denote(k, s.scope, s.funcs, c)
    case None => FailExpression(k, s, t, c, after);
    case Some(e) => CompleteExpression(k, s, t, c, e, after);
  }

  /** The same for a condition. */
  lemma FailCondition(k: FloatReader, s: PState, t: T.Tok, c: CExpr, rest: seq<T.Tok>)
    requires AtLevel(c, 0) && s.rest == [t] + (Yield(c) + rest) && Stops(c, rest, 0)
    requires DenoteCondition(k, s.scope, s.funcs, c).None?
    ensures ParseCondition(k, s).s.isError
  {
    hide AtLevel, ParseExpression, Denote, Yield, Neat, Stops;
    match Denote(k, s.scope, s.funcs, c)
    case None => FailExpression(k, s, t, c, rest);
    case Some(e) => CompleteExpression(k, s, t, c, e, rest);
  }

  lemma SemicolonKeepsError(r: StmtP)
    ensures r.s.isError ==> Semicolon(r).s.isError
  {
  }

  lemma FailDeclare(k: FloatReader, s: PState, c: CStmt, rest: seq<T.Tok>)
    requires c.CDeclare? && Meaningless(k, s, c, rest)
    ensures ParseStatement(k, s).s.isError
  {
    hide AtLevel, ParseExpression, Denote, Yield, ParseStatement, ParseDeclaration, Meaningless, DenoteStmt, Simple, Halts,
      EndsOpen, YieldStmt, YieldSemi, Semicolon, Next, Assignable, FromString;
    SimpleFails(k, s, c, rest);
    DeclareLayout(s, c, rest);
    var eq := T.Tok(T.ASSIGN, "=");
    DeclareStarts(s, c, [eq] + Yield(c.rhs) + YieldSemi(c.semi) + rest);
    Dispatch(k, s);
    FailLast(k, Next(Next(s)), eq, c.rhs, c.semi, rest);
    DeclareError(k, s);
    SemicolonKeepsError(ParseDeclaration(k, s));
  }

  lemma DeclareStarts(s: PState, c: CStmt, tail: seq<T.Tok>)
    requires c.CDeclare? && s.rest == [T.Tok(T.TYPE, c.ty), T.Tok(T.SYMBOL, c.name)] + tail
    ensures Current(s) == T.Tok(T.TYPE, c.ty) && Current(Next(s)) == T.Tok(T.SYMBOL, c.name)
  {
  }

  /** Where a declaration is an error. */
  lemma DeclareError(k: FloatReader, s: PState)
    requires At(Next(s), T.SYMBOL) && At(Next(Next(s)), T.ASSIGN)
    ensures var r := ParseExpression(k, Next(Next(s)));
      Current(Next(s)).lexeme in s.scope || r.s.isError
      || (r.e.Some? && !Assignable(FromString(Current(s).lexeme), r.e.value.Type()))
      ==> ParseDeclaration(k, s).s.isError
  {
    hide ParseExpression, Assignable, FromString;
  }

  lemma SimpleFails(k: FloatReader, s: PState, c: CStmt, rest: seq<T.Tok>)
    requires (c.CDeclare? || c.CAssign? || c.CPrint? || c.CReturn?) && Meaningless(k, s, c, rest)
    ensures var e := if c.CDeclare? || c.CAssign? then c.rhs else c.e;
      var d := Denote(k, s.scope, s.funcs, e);
      && Simple(e, c.semi) && Halts(e, c.semi, rest) && s.rest == YieldStmt(c) + rest
      && (d.Some? ==>
            (c.CDeclare? && (c.name in s.scope || !Assignable(FromString(c.ty), d.value.Type())))
            || (c.CAssign? && (Found(s.scope, c.name).None? || !Assignable(Found(s.scope, c.name).value, d.value.Type()))))
  {
    hide AtLevel, Denote, Yield, EndsOpen, Assignable, FromString;
  }

  lemma FailAssign(k: FloatReader, s: PState, c: CStmt, rest: seq<T.Tok>)
    requires c.CAssign? && Meaningless(k, s, c, rest)
    ensures ParseStatement(k, s).s.isError
  {
    hide AtLevel, ParseExpression, Denote, Yield, ParseStatement, ParseAssignment, Meaningless, DenoteStmt, Simple, Halts,
      EndsOpen, YieldStmt, YieldSemi, Semicolon, Next, Assignable, Found;
    SimpleFails(k, s, c, rest);
    AssignLayout(s, c, rest);
    Dispatch(k, s);
    var eq := T.Tok(T.ASSIGN, "=");
    FailLast(k, Next(s), eq, c.rhs, c.semi, rest);
    AssignError(k, s);
    SemicolonKeepsError(ParseAssignment(k, s));
  }

  /** Where an assignment is an error. */
  lemma AssignError(k: FloatReader, s: PState)
    requires At(Next(s), T.ASSIGN)
    ensures var r, t := ParseExpression(k, Next(s)), Found(s.scope, Current(s).lexeme);
      t.None? || r.s.isError || (r.e.Some? && !Assignable(t.value, r.e.value.Type())) ==> ParseAssignment(k, s).s.isError
  {
    hide ParseExpression, Assignable;
    assert Found(s.scope, Current(s).lexeme).Some? ==> Touch(s.scope, Current(s).lexeme) == s.scope;
  }

  lemma FailPrint(k: FloatReader, s: PState, c: CStmt, rest: seq<T.Tok>)
    requires (c.CPrint? || c.CReturn?) && Meaningless(k, s, c, rest)
    ensures ParseStatement(k, s).s.isError
  {
    hide AtLevel, ParseExpression, Denote, Yield, Meaningless, DenoteStmt, Simple, Halts, EndsOpen, Semicolon, Next,
      Assignable, Found, FromString, YieldSemi, ParseDeclaration, ParseAssignment, ParseBlock, ParseIf, ParseWhile, ParseDoWhile;
    SimpleFails(k, s, c, rest);
    var t := if c.CPrint? then T.Tok(T.IO_PRINT, "print") else T.Tok(T.RETURN, "return");
    assert s.rest == [t] + Yield(c.e) + YieldSemi(c.semi) + rest;
    FailLast(k, s, t, c.e, c.semi, rest);
    SemicolonKeepsError(ParsePrint(k, s));
    SemicolonKeepsError(ParseReturn(k, s));
  }

  lemma FailCallStmt(k: FloatReader, s: PState, c: CStmt, rest: seq<T.Tok>)
    requires c.CCallStmt? && Meaningless(k, s, c, rest)
    ensures ParseStatement(k, s).s.isError
  {
    hide ParseFuncall, ParseStatement, Denote, Yield, AtLevel, Semicolon, ParseFactor;
    Dispatch(k, s);
    var call := CCall(c.callee, c.args, c.closing);
    CallLevel(c);
    assert s.rest == Yield(call) + (YieldSemi(c.semi) + rest);
    FailCall(k, s, call, YieldSemi(c.semi) + rest);
    SemicolonKeepsError(ParseCallStatement(k, s));
  }

  lemma {:induction false} FailStmt(k: FloatReader, s: PState, c: CStmt, rest: seq<T.Tok>)
    requires Meaningless(k, s, c, rest)
    ensures ParseStatement(k, s).s.isError
    decreases c
  {
    hide ParseStatement, Meaningless;
    match c
    case CDeclare(_, _, _, _) => FailDeclare(k, s, c, rest);
    case CAssign(_, _, _) => FailAssign(k, s, c, rest);
    case CCallStmt(_, _, _, _) => FailCallStmt(k, s, c, rest);
    case CPrint(_, _) => FailPrint(k, s, c, rest);
    case CReturn(_, _) => FailPrint(k, s, c, rest);
    case CBlock(_) => FailBlock(k, s, c, rest);
    case CIf(_, _, _) => FailIf(k, s, c, rest);
    case CWhile(_, _) => FailWhile(k, s, c, rest);
    case CDoWhile(_, _) => FailDoWhile(k, s, c, rest);
  }

  /** An error in a part is an error of the whole. */
  lemma ErrorsStay(k: FloatReader, s: PState)
    ensures ParseCondition(k, s).s.isError ==> ParseIf(k, s).s.isError && ParseWhile(k, s).s.isError
    ensures var q := ParseCondition(k, s);
      q.e.Some? && ParseStatement(k, q.s).s.isError ==> ParseIf(k, s).s.isError && ParseWhile(k, s).s.isError
    ensures var q := ParseCondition(k, s);
      var a := ParseStatement(k, q.s);
      q.e.Some? && a.st.Some? && At(a.s, T.ELSE) && ParseStatement(k, Next(a.s)).s.isError ==> ParseIf(k, s).s.isError
    ensures s.rest != [] && ParseStatement(k, Next(s)).s.isError ==> ParseDoWhile(k, s).s.isError
    ensures s.rest != [] ==>
      var b := ParseStatement(k, Next(s));
      b.st.Some? && At(b.s, T.WHILE) && ParseCondition(k, b.s).s.isError ==> ParseDoWhile(k, s).s.isError
  {
    hide ParseCondition, ParseStatement;
  }

  lemma WhileFails(k: FloatReader, s: PState, c: CStmt, rest: seq<T.Tok>)
    requires c.CWhile? && Meaningless(k, s, c, rest)
    ensures Simple(c.cond, true) && s.rest == [T.Tok(T.WHILE, "while")] + (Yield(c.cond) + (YieldStmt(c.body) + rest))
    ensures DenoteCondition(k, s.scope, s.funcs, c.cond).Some? ==> forall neat ::
      Meaningless(k, After(s, neat, YieldStmt(c.body) + rest), c.body, rest)
  {
    hide AtLevel, Yield, DenoteCondition;
  }

  lemma {:induction false} FailWhile(k: FloatReader, s: PState, c: CStmt, rest: seq<T.Tok>)
    requires c.CWhile? && Meaningless(k, s, c, rest)
    ensures ParseStatement(k, s).s.isError
    decreases c, 0
  {
    WhileFails(k, s, c, rest);
    hide Meaningless, Stops, ParseCondition, ParseStatement, ParseWhile, DenoteCondition, Yield, YieldStmt, AtLevel, EndsOpen, Neat;
    var t, after := T.Tok(T.WHILE, "while"), YieldStmt(c.body) + rest;
    StmtFollows(c.body, rest);
    FollowsStops(c.cond, after);
    Dispatch(k, s);
    ErrorsStay(k, s);
    match DenoteCondition(k, s.scope, s.funcs, c.cond)
    case None => FailCondition(k, s, t, c.cond, after);
    case Some(e) =>
      CompleteCondition(k, s, t, c.cond, e, after);
      FailStmt(k, After(s, Neat(c.cond), after), c.body, rest);
  }

  lemma DoFails(k: FloatReader, s: PState, c: CStmt, rest: seq<T.Tok>)
    requires c.CDoWhile? && Meaningless(k, s, c, rest)
    ensures AtLevel(c.cond, 0) && At(s, T.DO) && Stops(c.cond, rest, 0) && s.rest != []
    ensures var after := [T.Tok(T.WHILE, "while")] + (Yield(c.cond) + rest);
      var d := DenoteStmt(k, s.scope, s.funcs, c.body);
      && (d.None? ==> Meaningless(k, Next(s), c.body, after))
      && (d.Some? ==> Parsable(k, Next(s), c.body, d.value, after) && DenoteCondition(k, d.value.scope, s.funcs, c.cond).None?)
  {
    hide AtLevel, Yield, DenoteCondition, Follows, EndsOpen, YieldStmt, GoesOn, OpenIf, StmtEndsOpen;
    DoSyntax(k, s, c, rest);
    DoLayout(s, c, rest);
    DoFollows(c, rest);
  }

  lemma DoSyntax(k: FloatReader, s: PState, c: CStmt, rest: seq<T.Tok>)
    requires c.CDoWhile? && Meaningless(k, s, c, rest)
    ensures s.rest == YieldStmt(c) + rest && MayFollow(c, rest) && AtLevel(c.cond, 0) && WellFormed(c.body) && !StmtEndsOpen(c.body)
    ensures var d := DenoteStmt(k, s.scope, s.funcs, c.body);
      d.Some? ==> DenoteCondition(k, d.value.scope, s.funcs, c.cond).None?
  {
    hide AtLevel, DenoteCondition, Follows, EndsOpen;
  }

  lemma {:induction false} FailDoWhile(k: FloatReader, s: PState, c: CStmt, rest: seq<T.Tok>)
    requires c.CDoWhile? && Meaningless(k, s, c, rest)
    ensures ParseStatement(k, s).s.isError
    decreases c, 0
  {
    DoFails(k, s, c, rest);
    hide Meaningless, Parsable, Stops, ParseCondition, ParseStatement, ParseDoWhile, DenoteCondition, Yield, YieldStmt, AtLevel,
      DenoteStmt, NeatStmt;
    var while_ := T.Tok(T.WHILE, "while");
    var after := [while_] + (Yield(c.cond) + rest);
    Dispatch(k, s);
    ErrorsStay(k, s);
    match DenoteStmt(k, s.scope, s.funcs, c.body)
    case None => FailStmt(k, Next(s), c.body, after);
    case Some(d) =>
      CompleteStmt(k, Next(s), c.body, d, after);
      FailCondition(k, After(s, NeatStmt(c.body), after).(scope := d.scope), while_, c.cond, rest);
  }

  /** The condition and the first branch; the second has no meaning if they have. */
  lemma IfFails(k: FloatReader, s: PState, c: CStmt, rest: seq<T.Tok>)
    requires c.CIf? && Meaningless(k, s, c, rest)
    ensures Simple(c.cond, true) && WellFormed(c.thn)
    ensures var tail := YieldElse(c.els) + rest;
      && s.rest == [T.Tok(T.IF, "if")] + (Yield(c.cond) + (YieldStmt(c.thn) + tail)) && MayFollow(c.thn, tail)
    ensures var x, d := DenoteCondition(k, s.scope, s.funcs, c.cond), DenoteStmt(k, s.scope, s.funcs, c.thn);
      x.Some? && d.Some? ==> c.els.Some? && forall s1: PState ::
        s1.scope == d.value.scope && s1.funcs == s.funcs && s1.rest == YieldStmt(c.els.value) + rest ==>
          Meaningless(k, s1, c.els.value, rest)
  {
    hide AtLevel, Yield, DenoteCondition, Stops, EndsOpen, MayFollow;
    IfLayout(c, rest);
    ThenFollows(c, rest);
  }

  lemma {:induction false} FailIf(k: FloatReader, s: PState, c: CStmt, rest: seq<T.Tok>)
    requires c.CIf? && Meaningless(k, s, c, rest)
    ensures ParseStatement(k, s).s.isError
    decreases c, 1
  {
    IfFails(k, s, c, rest);
    hide Meaningless, ParseCondition, ParseStatement, ParseIf, DenoteCondition, Yield, YieldStmt, YieldElse, DenoteStmt,
      WellFormed, AtLevel, Neat, NeatStmt, MayFollow, HeadIsNot, Next, Stops, EndsOpen;
    var t, tail := T.Tok(T.IF, "if"), YieldElse(c.els) + rest;
    var after := YieldStmt(c.thn) + tail;
    StmtFollows(c.thn, tail);
    FollowsStops(c.cond, after);
    Dispatch(k, s);
    IfStarts(s, t, Yield(c.cond) + after);
    ErrorsStay(k, s);
    var s0 := After(s, Neat(c.cond), after);
    var x, d := DenoteCondition(k, s.scope, s.funcs, c.cond), DenoteStmt(k, s.scope, s.funcs, c.thn);
    if x.None? {
      FailCondition(k, s, t, c.cond, after);
    } else {
      CompleteCondition(k, s, t, c.cond, x.value, after);
      if d.None? {
        Stands(k, s0, c.thn, tail);
        FailStmt(k, s0, c.thn, tail);
      } else {
        CompleteStmt(k, s0, c.thn, d.value, tail);
        var s1 := Done(s0, d.value, NeatStmt(c.thn), tail).s;
        ElseLayout(s1, c.els, rest);
        FailStmt(k, Next(s1), c.els.value, rest);
      }
    }
  }

  lemma IfStarts(s: PState, t: T.Tok, rest: seq<T.Tok>)
    requires s.rest == [t] + rest
    ensures Current(s) == t
  {
  }

  lemma Stands(k: FloatReader, s: PState, c: CStmt, rest: seq<T.Tok>)
    requires WellFormed(c) && s.rest == YieldStmt(c) + rest && MayFollow(c, rest) && DenoteStmt(k, s.scope, s.funcs, c).None?
    ensures Meaningless(k, s, c, rest)
  {
  }

  lemma {:induction false} FailBlock(k: FloatReader, s: PState, c: CStmt, rest: seq<T.Tok>)
    requires c.CBlock? && Meaningless(k, s, c, rest)
    ensures ParseStatement(k, s).s.isError
    decreases c, 0
  {
    BlockFails(k, s, c, rest);
    hide Meaningless, ParseStatement, ParseStatements, YieldStmts, DenoteStmts, InBlock, Advances;
    Dispatch(k, s);
    FailSeq(k, Next(s), c.stmts, [], rest);
  }

  lemma BlockFails(k: FloatReader, s: PState, c: CStmt, rest: seq<T.Tok>)
    requires c.CBlock? && Meaningless(k, s, c, rest)
    ensures s.rest != [] && At(s, T.BL) && InBlock(c.stmts) && DenoteStmts(k, s.scope, s.funcs, c.stmts).None?
    ensures Next(s).rest == YieldStmts(c.stmts) + ([T.Tok(T.BR, "}")] + rest)
  {
    hide YieldStmts, DenoteStmts;
    assert Next(s).rest == YieldStmts(c.stmts) + ([T.Tok(T.BR, "}")] + rest);
  }

  lemma {:induction false} FailSeq(k: FloatReader, s: PState, ss: seq<CStmt>, acc: seq<Stmt>, rest: seq<T.Tok>)
    requires InBlock(ss) && s.rest == YieldStmts(ss) + ([T.Tok(T.BR, "}")] + rest)
    requires DenoteStmts(k, s.scope, s.funcs, ss).None?
    ensures ParseStatements(k, s, acc).s.isError
    decreases ss
  {
    hide InBlock, Meaningless, Parsable, ParseStatement, ParseStatements, DenoteStmt, DenoteStmts, YieldStmts, StartsStmt, NeatStmt;
    SeqFails(k, s, ss);
    SeqStands(k, s, ss, rest);
    FirstError(k, s, acc);
    var after := YieldStmts(ss[1..]) + ([T.Tok(T.BR, "}")] + rest);
    match DenoteStmt(k, s.scope, s.funcs, ss[0])
    case None => FailStmt(k, s, ss[0], after);
    case Some(d) =>
      CompleteStmt(k, s, ss[0], d, after);
      StatementsGoOn(k, s, acc);
      FailSeq(k, Done(s, d, NeatStmt(ss[0]), after).s, ss[1..], acc + [d.st], rest);
  }

  /** The first statement before the others. */
  lemma SeqStands(k: FloatReader, s: PState, ss: seq<CStmt>, rest: seq<T.Tok>)
    requires ss != [] && InBlock(ss) && s.rest == YieldStmts(ss) + ([T.Tok(T.BR, "}")] + rest)
    ensures StartsStmt(Current(s).ty) && InBlock(ss[1..])
    ensures var after := YieldStmts(ss[1..]) + ([T.Tok(T.BR, "}")] + rest);
      match DenoteStmt(k, s.scope, s.funcs, ss[0])
      case None => Meaningless(k, s, ss[0], after)
      case Some(d) => Parsable(k, s, ss[0], d, after)
  {
    hide WellFormed, DenoteStmt, YieldStmt, YieldStmts, Follows, StmtEndsOpen, OpenIf, StartsStmt;
    var close := [T.Tok(T.BR, "}")] + rest;
    CloseFollows(rest);
    YieldsFirst(ss, close);
    SeqFollows(ss[1..], close);
    FollowsMay(ss[0], YieldStmts(ss[1..]) + close);
    StmtStarts(ss[0]);
    assert s.rest[0] == YieldStmt(ss[0])[0];
  }

  lemma SeqFails(k: FloatReader, s: PState, ss: seq<CStmt>)
    requires DenoteStmts(k, s.scope, s.funcs, ss).None?
    ensures ss != []
    ensures var d := DenoteStmt(k, s.scope, s.funcs, ss[0]);
      d.Some? ==> DenoteStmts(k, d.value.scope, s.funcs, ss[1..]).None?
  {
    hide DenoteStmt;
  }

  lemma FirstError(k: FloatReader, s: PState, acc: seq<Stmt>)
    ensures StartsStmt(Current(s).ty) && ParseStatement(k, s).s.isError ==> ParseStatements(k, s, acc).s.isError
  {
    hide ParseStatement;
  }

  // ----- functions and files -----

  lemma FailFunction(k: FloatReader, s: PState, c: CFunction, rest: seq<T.Tok>)
    requires WellFormedFunction(c) && s.rest == YieldFunction(c) + rest && MayFollow(c.body, rest)
    requires DenoteFunction(k, s.funcs, c).None? && FromString(c.ty) != UNDEFINED
    ensures ParseFunction(k, s).s.isError
  {
    hide WellFormed, YieldStmt, DenoteStmt, MayFollow, YieldSignature, ParseSignature, ParseStatement, ParamScope;
    var t := FromString(c.ty);
    var body := YieldStmt(c.body) + rest;
    var colon := [T.Tok(T.COLON, ":"), T.Tok(T.TYPE, c.ty)] + body;
    var s0 := s.(scope := map[]);
    assert s.rest == [T.Tok(T.FUNC, "func"), T.Tok(T.SYMBOL, c.name)] + (YieldSignature(c) + colon);
    assert Next(s0).rest == [T.Tok(T.SYMBOL, c.name)] + (YieldSignature(c) + colon);
    var s1 := Next(Next(s0));
    assert s1.rest == YieldSignature(c) + colon;
    CompleteSignature(s1, c, colon);
    var a := ParseSignature(s1);
    assert Next(a.s).rest == [T.Tok(T.TYPE, c.ty)] + body;
    var s2 := Next(Next(a.s));
    assert s2.rest == body;
    var s3 := s2.(funcs := Insert(s2.funcs, c.name, t));
    Stands(k, s3, c.body, rest);
    FailStmt(k, s3, c.body, rest);
  }

  lemma {:induction false} FailFile(k: FloatReader, s: PState, cs: seq<CFunction>, acc: Program)
    requires WellFormedFile(cs) && s.rest == YieldFile(cs) && T.AllLexed(s.rest) && DenoteFile(k, s.funcs, cs).None?
    ensures ParseFile(k, s, acc).s.isError
    decreases cs
  {
    hide WellFormedFunction, ParseFile, YieldFile, FromString, Insert, YieldFunction, DenoteFunction, DenoteFile, ParseFunction, MayFollow, NeatFunction, StmtEndsOpen, T.AllLexed;
    FileFails(k, s, cs);
    FileLexed(cs);
    FileParts(s, cs);
    var rest := YieldFile(cs[1..]);
    FileFollows(cs[0].body, cs[1..]);
    FunctionError(k, s, acc);
    match DenoteFunction(k, s.funcs, cs[0])
    case None => FailFunction(k, s, cs[0], rest);
    case Some(d) =>
      CompleteFunction(k, s, cs[0], d, rest);
      FailFile(k, ParseFunction(k, s).s, cs[1..], acc + [d]);
  }

  lemma FileParts(s: PState, cs: seq<CFunction>)
    requires cs != [] && WellFormedFile(cs) && s.rest == YieldFile(cs)
    ensures WellFormedFunction(cs[0]) && (StmtEndsOpen(cs[0].body) ==> cs[1..] == []) && WellFormedFile(cs[1..])
    ensures s.rest == YieldFunction(cs[0]) + YieldFile(cs[1..]) && At(s, T.FUNC)
  {
    hide WellFormedFunction, YieldFunction, StmtEndsOpen;
    FunctionStarts(cs[0]);
  }

  lemma FileFails(k: FloatReader, s: PState, cs: seq<CFunction>)
    requires DenoteFile(k, s.funcs, cs).None?
    ensures cs != []
    ensures DenoteFunction(k, s.funcs, cs[0]).Some? ==>
      DenoteFile(k, Insert(s.funcs, cs[0].name, FromString(cs[0].ty)), cs[1..]).None?
  {
    hide DenoteFunction;
  }

  /** The type of a function and the tokens after it are read from the text. */
  lemma FileLexed(cs: seq<CFunction>)
    requires cs != [] && T.AllLexed(YieldFile(cs))
    ensures FromString(cs[0].ty) != UNDEFINED && T.AllLexed(YieldFile(cs[1..]))
  {
    hide YieldStmt, YieldSignature, FromString, T.Lexed, YieldFunction;
    var c, ts := cs[0], YieldFile(cs);
    var head, tail := [T.Tok(T.FUNC, "func"), T.Tok(T.SYMBOL, c.name)] + YieldSignature(c), YieldStmt(c.body);
    FunctionTokens(c, head);
    Middle(head, T.Tok(T.COLON, ":"), T.Tok(T.TYPE, c.ty), tail, YieldFile(cs[1..]), ts);
    LexedType(c.ty);
  }

  lemma FunctionTokens(c: CFunction, head: seq<T.Tok>)
    requires head == [T.Tok(T.FUNC, "func"), T.Tok(T.SYMBOL, c.name)] + YieldSignature(c)
    ensures YieldFunction(c) == head + [T.Tok(T.COLON, ":"), T.Tok(T.TYPE, c.ty)] + YieldStmt(c.body)
  {
  }

  lemma LexedType(ty: string)
    requires T.Lexed(T.Tok(T.TYPE, ty))
    ensures FromString(ty) != UNDEFINED
  {
  }

  lemma Middle(head: seq<T.Tok>, a: T.Tok, b: T.Tok, tail: seq<T.Tok>, rest: seq<T.Tok>, ts: seq<T.Tok>)
    requires ts == head + [a, b] + tail + rest && T.AllLexed(ts)
    ensures T.Lexed(b) && T.AllLexed(rest)
  {
    hide T.Lexed;
    assert ts[|head| + 1] == b;
    assert forall i :: 0 <= i < |rest| ==> rest[i] == ts[|ts| - |rest| + i];
  }

  lemma FunctionError(k: FloatReader, s: PState, acc: Program)
    requires At(s, T.FUNC)
    ensures var f := ParseFunction(k, s);
      && (f.s.isError ==> ParseFile(k, s, acc).s.isError)
      && (f.d.Some? ==> ParseFile(k, s, acc) == ParseFile(k, f.s, acc + [f.d.value]))
  {
    hide ParseFunction;
  }

  /** On the tokens of any derivation the parser reports an error if and only if the derivation
      denotes no program. */
  lemma ErrorExactlyWhenMeaningless(k: FloatReader, cs: seq<CFunction>)
    requires WellFormedFile(cs) && T.AllLexed(YieldFile(cs))
    ensures Parse(k, YieldFile(cs)).s.isError <==> DenoteFile(k, map[], cs).None?
  {
    hide ParseFile, DenoteFile, YieldFile, T.AllLexed, WellFormedFile;
    match DenoteFile(k, map[], cs)
    case None => FailFile(k, StartState(YieldFile(cs)), cs, []);
    case Some(p) => ParserAcceptsGrammar(k, cs, p);
  }
}
