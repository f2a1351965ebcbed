/** Everything the grammar derives, the parser accepts: parsing the tokens of a well-formed,
    well-typed tree gives the syntax tree it denotes and leaves exactly the tokens after it. */
module Completeness {
  import opened Wrappers
  import opened Ast
  import opened Parsing
  import opened Grammar
  import T = Tokens

  // ----- what may come next -----

  predicate HeadIsNot(rest: seq<T.Tok>, t: T.TokenType) {
    rest == [] || rest[0].ty != t
  }

  /** The expression read so far at this level cannot go on with the next token. */
  predicate Stops(c: CExpr, rest: seq<T.Tok>, level: nat) {
    (rest != [] ==> !GoesOn(c, level, rest[0].ty)) && (EndsOpen(c) ==> rest == [])
  }

  /** No expression goes on with the next token, and no statement. */
  predicate Follows(rest: seq<T.Tok>) {
    HeadIsNot(rest, T.PL) && HeadIsNot(rest, T.SEMICOLON) && forall j :: 0 <= j < 6 ==> HeadIsNot(rest, LevelToken(j))
  }

  predicate StartsExpr(t: T.TokenType) {
    t.SYMBOL? || t.BOOL? || t.INTEGER? || t.FLOAT? || t.PL? || t.ADD? || t.NOT?
  }

  predicate StartsStmt(t: T.TokenType) {
    t.TYPE? || t.SYMBOL? || t.IO_PRINT? || t.RETURN? || t.BL? || t.IF? || t.WHILE? || t.DO?
  }

  lemma {:induction false} YieldStarts(c: CExpr, level: nat)
    requires AtLevel(c, level)
    ensures Yield(c) != [] && StartsExpr(Yield(c)[0].ty)
    ensures level == 7 ==> !Yield(c)[0].ty.ADD? && !Yield(c)[0].ty.NOT?
    decreases c
  {
    if c.CBinary? {
      YieldStarts(c.lhs, c.level + 1);
    }
  }

  lemma StmtStarts(c: CStmt)
    ensures YieldStmt(c) != [] && StartsStmt(YieldStmt(c)[0].ty)
  {
  }

  // ----- expressions -----

  /** The state before the tokens of `c` and `rest`. */
  predicate Before(s: PState, c: CExpr, rest: seq<T.Tok>) {
    s.rest == Yield(c) + rest
  }

  /** ... and after the tokens of `c`, for some of which there may have been a message. */
  function After(s: PState, neat: bool, rest: seq<T.Tok>): PState {
    s.(rest := rest, diagnosed := s.diagnosed || !neat)
  }

  lemma {:induction false} CompleteLevel(k: FloatReader, s: PState, c: CExpr, level: nat, e: Expr, rest: seq<T.Tok>)
    requires level <= 7 && AtLevel(c, level) && Before(s, c, rest) && Stops(c, rest, level)
    requires Denote(k, s.scope, s.funcs, c) == Some(e)
    ensures ParseLevel(k, s, level) == ExprP(Some(e), After(s, Neat(c), rest))
    decreases c, 10 - level
  {
    hide Yield, Denote, ParseLevel, Neat;
    if level == 7 {
      CompleteFactor(k, s, c, e, rest);
    } else if level == 6 {
      CompleteUnary(k, s, c, e, rest);
    } else if c.CBinary? && c.level == level {
      CompleteBinary(k, s, c, e, rest);
    } else {
      TighterStops(c, rest, level);
      CompleteLevel(k, s, c, level + 1, e, rest);
      LevelDown(k, s, level);
    }
  }

  lemma TighterStops(c: CExpr, rest: seq<T.Tok>, level: nat)
    requires Stops(c, rest, level)
    ensures Stops(c, rest, level + 1) && (level < 6 ==> HeadIsNot(rest, LevelToken(level)))
  {
  }

  /** Without an operator of its own, a level is the next tighter one. */
  lemma LevelDown(k: FloatReader, s: PState, level: nat)
    requires level < 6
    ensures var l := ParseLevel(k, s, level + 1);
      (l.e.None? || !At(l.s, LevelToken(level))) ==> ParseLevel(k, s, level) == l
  {
  }

  lemma {:induction false} CompleteBinary(k: FloatReader, s: PState, c: CExpr, e: Expr, rest: seq<T.Tok>)
    requires c.CBinary? && AtLevel(c, c.level) && Before(s, c, rest) && Stops(c, rest, c.level)
    requires Denote(k, s.scope, s.funcs, c) == Some(e)
    ensures ParseLevel(k, s, c.level) == ExprP(Some(e), After(s, Neat(c), rest))
    decreases c, 0
  {
    hide ParseLevel, Denote, Yield, AtLevel, Stops, Combine, GoesOn;
    var a, b := BinaryParts(k, s, c, e);
    var tail := Yield(c.rhs) + rest;
    var rest1 := [T.Tok(LevelToken(c.level), c.lexeme)] + tail;
    BinaryLayout(c, rest);
    OperatorStops(c, tail);
    CompleteLevel(k, s, c.lhs, c.level + 1, a, rest1);
    var s1 := After(s, Neat(c.lhs), rest1);
    assert Next(s1) == After(s, Neat(c.lhs), tail);
    RightStops(c, rest);
    CompleteLevel(k, Next(s1), c.rhs, c.level, b, rest);
    LevelUp(k, s, c.level);
  }

  lemma BinaryLayout(c: CExpr, rest: seq<T.Tok>)
    requires c.CBinary? && c.level < 6
    ensures Yield(c) + rest == Yield(c.lhs) + ([T.Tok(LevelToken(c.level), c.lexeme)] + (Yield(c.rhs) + rest))
    ensures Neat(c) <==> Neat(c.lhs) && Neat(c.rhs)
  {
  }

  lemma BinaryParts(k: FloatReader, s: PState, c: CExpr, e: Expr) returns (a: Expr, b: Expr)
    requires c.CBinary? && AtLevel(c, c.level) && Denote(k, s.scope, s.funcs, c) == Some(e)
    ensures c.level < 6 && AtLevel(c.lhs, c.level + 1) && AtLevel(c.rhs, c.level)
    ensures Denote(k, s.scope, s.funcs, c.lhs) == Some(a) && Denote(k, s.scope, s.funcs, c.rhs) == Some(b)
    ensures forall r: PState :: Combine(c.level, c.lexeme, a, ExprP(Some(b), r)) == ExprP(Some(e), r)
  {
    a := Denote(k, s.scope, s.funcs, c.lhs).value;
    b := Denote(k, s.scope, s.funcs, c.rhs).value;
  }

  /** With an operator of its own. */
  lemma LevelUp(k: FloatReader, s: PState, level: nat)
    requires level < 6
    ensures var l := ParseLevel(k, s, level + 1);
      l.e.Some? && At(l.s, LevelToken(level)) ==>
        ParseLevel(k, s, level) == Combine(level, Current(l.s).lexeme, l.e.value, ParseLevel(k, Next(l.s), level))
  {
  }

  lemma OperatorStops(c: CExpr, tail: seq<T.Tok>)
    requires c.CBinary? && AtLevel(c, c.level)
    ensures Stops(c.lhs, [T.Tok(LevelToken(c.level), c.lexeme)] + tail, c.level + 1)
  {
  }

  lemma RightStops(c: CExpr, rest: seq<T.Tok>)
    requires c.CBinary? && Stops(c, rest, c.level)
    ensures Stops(c.rhs, rest, c.level)
  {
  }

  lemma {:induction false} CompleteUnary(k: FloatReader, s: PState, c: CExpr, e: Expr, rest: seq<T.Tok>)
    requires AtLevel(c, 6) && Before(s, c, rest) && Stops(c, rest, 6)
    requires Denote(k, s.scope, s.funcs, c) == Some(e)
    ensures ParseLevel(k, s, 6) == ParseUnary(k, s) == ExprP(Some(e), After(s, Neat(c), rest))
    decreases c, 2
  {
    if c.CUnary? {
      assert Next(s).rest == Yield(c.sub) + rest;
      CompleteUnary(k, Next(s), c.sub, Denote(k, s.scope, s.funcs, c.sub).value, rest);
    } else {
      YieldStarts(c, 7);
      TighterStops(c, rest, 6);
      CompleteFactor(k, s, c, e, rest);
    }
  }

  lemma {:induction false} CompleteFactor(k: FloatReader, s: PState, c: CExpr, e: Expr, rest: seq<T.Tok>)
    requires AtLevel(c, 7) && Before(s, c, rest) && Stops(c, rest, 7)
    requires Denote(k, s.scope, s.funcs, c) == Some(e)
    ensures ParseLevel(k, s, 7) == ParseFactor(k, s) == ExprP(Some(e), After(s, Neat(c), rest))
    decreases c, 1
  {
    hide Yield, Denote, ParseFuncall, ParseLevel, AtLevel, ParseFactor, Neat;
    FactorLevel(k, s);
    InnerLevel(c);
    match c
    case CParen(_) => CompleteParen(k, s, c, e, rest);
    case CCall(_, _, _) =>
      CompleteCall(k, s, c, e, rest);
      FactorCall(k, s);
    case _ => CompleteAtom(k, s, c, e, rest);
  }

  lemma CompleteAtom(k: FloatReader, s: PState, c: CExpr, e: Expr, rest: seq<T.Tok>)
    requires c.CVar? || c.CBool? || c.CInt? || c.CFloat?
    requires Before(s, c, rest) && Stops(c, rest, 7) && Denote(k, s.scope, s.funcs, c) == Some(e)
    ensures ParseFactor(k, s) == ExprP(Some(e), After(s, Neat(c), rest))
  {
    hide ParseFuncall, ParseLevel;
    assert Next(s).rest == rest;
    assert c.CVar? ==> Touch(s.scope, c.name) == s.scope;
  }

  lemma {:induction false} CompleteParen(k: FloatReader, s: PState, c: CExpr, e: Expr, rest: seq<T.Tok>)
    requires c.CParen? && AtLevel(c.inner, 0) && !EndsOpen(c.inner) && Before(s, c, rest)
    requires Denote(k, s.scope, s.funcs, c) == Some(e)
    ensures ParseFactor(k, s) == ExprP(Some(e), After(s, Neat(c), rest))
    decreases c, 0
  {
    hide ParseFuncall, ParseLevel, AtLevel;
    var after := [CLOSE] + rest;
    assert Next(s).rest == Yield(c.inner) + after;
    CompleteLevel(k, Next(s), c.inner, 0, e, after);
    assert Next(After(s, Neat(c.inner), after)).rest == rest;
  }

  lemma FactorCall(k: FloatReader, s: PState)
    ensures At(s, T.SYMBOL) && At(Next(s), T.PL) ==> ParseFactor(k, s) == ParseFuncall(k, s)
  {
    hide ParseFuncall, ParseLevel;
  }

  lemma FactorLevel(k: FloatReader, s: PState)
    ensures ParseLevel(k, s, 7) == ParseFactor(k, s) && ParseLevel(k, s, 6) == ParseUnary(k, s)
  {
  }

  lemma InnerLevel(c: CExpr)
    requires AtLevel(c, 7)
    ensures c.CParen? ==> AtLevel(c.inner, 0) && !EndsOpen(c.inner)
    ensures !c.CUnary? && !c.CBinary?
  {
  }

  lemma {:induction false} CompleteCall(k: FloatReader, s: PState, c: CExpr, e: Expr, rest: seq<T.Tok>)
    requires c.CCall? && AtLevel(c, 7) && Before(s, c, rest) && (EndsOpen(c) ==> rest == [])
    requires Denote(k, s.scope, s.funcs, c) == Some(e)
    ensures At(s, T.SYMBOL) && At(Next(s), T.PL)
    ensures ParseFuncall(k, s) == ExprP(Some(e), After(s, Neat(c), rest))
    decreases c, 0
  {
    hide ParseArgs, AtLevel, Denote, DenoteArgs, YieldArgs, MayClose, NeatArgs;
    var after := YieldClosing(c.closing) + rest;
    DenoteCall(k, s.scope, s.funcs, c);
    assert Next(s).rest == [OPEN] + (YieldArgs(c.args) + after);
    assert Touch(s.funcs, c.callee) == s.funcs;
    CallArgsLevel(c);
    CompleteArgList(k, s, c.args, c.closing, e.args, rest);
    assert Next(After(s, Neat(c), after)).rest == rest;
  }

  /** What the arguments are parsed to, up to where the call closes. */
  function ArgsDone(s: PState, args: seq<CExpr>, z: Closing, es: seq<Expr>, rest: seq<T.Tok>): ArgsP {
    ArgsP(es, After(s, z.Closed? && NeatArgs(args), YieldClosing(z) + rest))
  }

  lemma {:induction false} CompleteArgList(k: FloatReader, s: PState, args: seq<CExpr>, z: Closing, es: seq<Expr>, rest: seq<T.Tok>)
    requires (forall i :: 0 <= i < |args| ==> AtLevel(args[i], 0)) && MayClose(args, z) && (z.Ended? ==> rest == [])
    requires s.rest != [] && Next(s).rest == [OPEN] + (YieldArgs(args) + (YieldClosing(z) + rest))
    requires DenoteArgs(k, s.scope, s.funcs, args) == Some(es)
    ensures ParseArgs(k, s) == ArgsDone(s, args, z, es, rest)
    decreases args, 1
  {
    hide ParseArgsLoop, AtLevel, DenoteArgs;
    var s1 := Next(s);
    var after := YieldClosing(z) + rest;
    if args == [] {
      assert Next(s1).rest == after;
      NoArgs(k, s.scope, s.funcs);
    } else {
      ArgsStart(args);
      assert Next(s1).rest == YieldArgs(args) + after;
      assert Next(s1).rest[0] == YieldArgs(args)[0];
      CompleteArgs(k, s1, args, z, es, OPEN, [], rest);
    }
  }

  lemma NoArgs(k: FloatReader, scope: Table, funcs: Table)
    ensures DenoteArgs(k, scope, funcs, []) == Some([])
  {
  }

  lemma CallArgsLevel(c: CExpr)
    requires c.CCall? && AtLevel(c, 7)
    ensures (forall i :: 0 <= i < |c.args| ==> AtLevel(c.args[i], 0)) && MayClose(c.args, c.closing)
  {
  }

  lemma DenoteCall(k: FloatReader, scope: Table, funcs: Table, c: CExpr)
    requires c.CCall? && Denote(k, scope, funcs, c).Some?
    ensures var e := Denote(k, scope, funcs, c).value;
      && e.Call? && e.callee == c.callee && Found(funcs, c.callee) == Some(e.retTy)
      && DenoteArgs(k, scope, funcs, c.args) == Some(e.args) && |e.args| == |c.args|
  {
    DenoteArgsLength(k, scope, funcs, c.args);
  }

  lemma {:induction false} DenoteArgsLength(k: FloatReader, scope: Table, funcs: Table, args: seq<CExpr>)
    ensures var r := DenoteArgs(k, scope, funcs, args); r.Some? ==> |r.value| == |args|
    decreases args
  {
    if args != [] {
      DenoteArgsLength(k, scope, funcs, args[1..]);
    }
  }

  lemma ArgsStart(args: seq<CExpr>)
    requires args != [] && AtLevel(args[0], 0)
    ensures YieldArgs(args) != [] && StartsExpr(YieldArgs(args)[0].ty)
  {
    YieldStarts(args[0], 0);
  }

  /** An expression after a token that is skipped. */
  lemma {:induction false} CompleteExpression(k: FloatReader, s: PState, t: T.Tok, c: CExpr, e: Expr, rest: seq<T.Tok>)
    requires AtLevel(c, 0) && s.rest == [t] + (Yield(c) + rest) && Stops(c, rest, 0)
    requires Denote(k, s.scope, s.funcs, c) == Some(e)
    ensures ParseExpression(k, s) == ExprP(Some(e), After(s, Neat(c), rest))
    decreases c, 11
  {
    YieldStarts(c, 0);
    assert Next(s).rest == Yield(c) + rest;
    CompleteLevel(k, Next(s), c, 0, e, rest);
  }

  lemma {:induction false} CompleteArgs(k: FloatReader, s: PState, args: seq<CExpr>, z: Closing, es: seq<Expr>, sep: T.Tok,
                                        acc: seq<Expr>, rest: seq<T.Tok>)
    requires args != [] && (forall i :: 0 <= i < |args| ==> AtLevel(args[i], 0)) && MayClose(args, z)
    requires s.rest == [sep] + (YieldArgs(args) + (YieldClosing(z) + rest)) && sep.ty != T.PR && (z.Ended? ==> rest == [])
    requires DenoteArgs(k, s.scope, s.funcs, args) == Some(es)
    ensures ParseArgsLoop(k, s, acc) == ArgsDone(s, args, z, acc + es, rest)
    decreases args, 0
  {
    hide ParseExpression, AtLevel, Denote, DenoteArgs, Yield, YieldArgs, YieldClosing, ParseArgsLoop, MayClose, Neat,
      NeatArgs, Stops;
    var after := YieldClosing(z) + rest;
    ClosingStops(args, z, rest);
    var e := FirstArg(k, s, args, es, after);
    if |args| == 1 {
      CompleteExpression(k, s, sep, args[0], e, after);
      LastArg(k, s, args, z, e, acc, rest);
    } else {
      var tail := [COMMA_TOK] + (YieldArgs(args[1..]) + after);
      CompleteExpression(k, s, sep, args[0], e, tail);
      CompleteArgs(k, After(s, Neat(args[0]), tail), args[1..], z, es[1..], COMMA_TOK, acc + [e], rest);
      assert acc + es == acc + [e] + es[1..];
      MoreArgs(k, s, args, z, es, e, acc, tail, rest);
    }
  }

  lemma LastArg(k: FloatReader, s: PState, args: seq<CExpr>, z: Closing, e: Expr, acc: seq<Expr>, rest: seq<T.Tok>)
    requires |args| == 1 && MayClose(args, z) && (z.Ended? ==> rest == []) && !At(s, T.PR)
    requires ParseExpression(k, s) == ExprP(Some(e), After(s, Neat(args[0]), YieldClosing(z) + rest))
    ensures ParseArgsLoop(k, s, acc) == ArgsDone(s, args, z, acc + [e], rest)
  {
    hide ParseExpression, ParseArgsLoop, MayClose, Neat, NeatArgs, YieldClosing;
    NeatCons(args);
    LoopLast(k, s, acc);
    ClosingHead(args, z, rest);
  }

  lemma MoreArgs(k: FloatReader, s: PState, args: seq<CExpr>, z: Closing, es: seq<Expr>, e: Expr, acc: seq<Expr>,
                 tail: seq<T.Tok>, rest: seq<T.Tok>)
    requires |args| > 1 && !At(s, T.PR) && tail != [] && tail[0] == COMMA_TOK && es != [] && acc + es == acc + [e] + es[1..]
    requires ParseExpression(k, s) == ExprP(Some(e), After(s, Neat(args[0]), tail))
    requires var s1 := After(s, Neat(args[0]), tail);
      ParseArgsLoop(k, s1, acc + [e]) == ArgsDone(s1, args[1..], z, acc + [e] + es[1..], rest)
    ensures ParseArgsLoop(k, s, acc) == ArgsDone(s, args, z, acc + es, rest)
  {
    hide ParseExpression, ParseArgsLoop, Neat, NeatArgs, YieldClosing;
    NeatCons(args);
    LoopMore(k, s, acc);
  }

  /** The first argument and the rest. */
  lemma FirstArg(k: FloatReader, s: PState, args: seq<CExpr>, es: seq<Expr>, after: seq<T.Tok>) returns (e: Expr)
    requires args != [] && DenoteArgs(k, s.scope, s.funcs, args) == Some(es)
    ensures Denote(k, s.scope, s.funcs, args[0]) == Some(e) && es != [] && e == es[0]
    ensures DenoteArgs(k, s.scope, s.funcs, args[1..]) == Some(es[1..]) && (|args| == 1 ==> es == [e])
    ensures if |args| == 1 then YieldArgs(args) == Yield(args[0])
            else YieldArgs(args) + after == Yield(args[0]) + ([COMMA_TOK] + (YieldArgs(args[1..]) + after))
  {
    e := es[0];
    if |args| == 1 {
      NoArgs(k, s.scope, s.funcs);
      assert args[1..] == [];
    }
  }

  lemma NeatCons(args: seq<CExpr>)
    requires args != []
    ensures NeatArgs(args) <==> Neat(args[0]) && NeatArgs(args[1..])
    ensures |args| == 1 ==> (NeatArgs(args) <==> Neat(args[0]))
  {
    hide Neat;
    assert forall i :: 0 < i < |args| ==> args[i] == args[1..][i - 1];
  }

  /** An argument ends before the comma, or where the call closes. */
  lemma ClosingStops(args: seq<CExpr>, z: Closing, rest: seq<T.Tok>)
    requires args != [] && MayClose(args, z) && (z.Ended? ==> rest == [])
    ensures |args| == 1 ==> Stops(args[0], YieldClosing(z) + rest, 0)
    ensures |args| > 1 ==> MayClose(args[1..], z) && forall tail :: Stops(args[0], [COMMA_TOK] + tail, 0)
  {
    if |args| > 1 {
      var more := args[1..];
      assert more[|more| - 1] == args[|args| - 1];
    }
  }

  /** What is there instead of a closing parenthesis. */
  lemma ClosingHead(args: seq<CExpr>, z: Closing, rest: seq<T.Tok>)
    requires MayClose(args, z) && (z.Ended? ==> rest == [])
    ensures var after := YieldClosing(z) + rest;
      if z.Closed? then after != [] && after[0].ty == T.PR else HeadIsNot(after, T.PR) && HeadIsNot(after, T.COMMA)
  {
  }

  lemma LoopLast(k: FloatReader, s: PState, acc: seq<Expr>)
    ensures var r := ParseExpression(k, s);
      !At(s, T.PR) && r.e.Some? && !At(r.s, T.COMMA) ==>
        ParseArgsLoop(k, s, acc) == ArgsP(acc + [r.e.value], if At(r.s, T.PR) then r.s else Diagnose(r.s))
  {
  }

  lemma LoopMore(k: FloatReader, s: PState, acc: seq<Expr>)
    ensures var r := ParseExpression(k, s);
      !At(s, T.PR) && r.e.Some? && At(r.s, T.COMMA) ==>
        ParseArgsLoop(k, s, acc) == ParseArgsLoop(k, r.s, acc + [r.e.value])
  {
  }
}
