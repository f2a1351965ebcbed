/** Everything the parser accepts without an error, the grammar derives: the tokens consumed are
    the tokens of a well-formed, well-typed tree, the syntax tree is the one it denotes, and a message
    has been printed exactly if something in the tree is not closed. */
module ParserSoundness {
  import opened Wrappers
  import opened Ast
  import opened Parsing
  import opened Grammar
  import opened Completeness
  import T = Tokens

  lemma ProperNext(s: PState)
    requires T.AllLexed(s.rest)
    ensures T.AllLexed(Next(s).rest)
    ensures s.rest != [] ==> T.Lexed(Current(s)) && s.rest == [Current(s)] + Next(s).rest
  {
  }

  lemma LexedNext(s: PState)
    requires T.AllLexed(s.rest)
    ensures T.AllLexed(Next(s).rest)
    ensures s.rest != [] ==> s.rest == [Current(s)] + Next(s).rest
  {
    ProperNext(s);
  }

  /** The kinds of token with a single lexeme. */
  predicate Fixed(t: T.TokenType) {
    match t
    case FUNC => true
    case IF => true
    case ELSE => true
    case DO => true
    case WHILE => true
    case RETURN => true
    case IO_PRINT => true
    case PL => true
    case PR => true
    case BL => true
    case BR => true
    case COMMA => true
    case SEMICOLON => true
    case COLON => true
    case ASSIGN => true
    case _ => false
  }

  function LexemeOf(t: T.TokenType): string {
    match t
    case FUNC => "func"
    case IF => "if"
    case ELSE => "else"
    case DO => "do"
    case WHILE => "while"
    case RETURN => "return"
    case IO_PRINT => "print"
    case PL => "("
    case PR => ")"
    case BL => "{"
    case BR => "}"
    case COMMA => ","
    case SEMICOLON => ";"
    case COLON => ":"
    case ASSIGN => "="
    case _ => ""
  }

  /** A token of a fixed kind is spelled out by its kind. */
  lemma Spelled(s: PState, t: T.TokenType)
    requires T.AllLexed(s.rest) && At(s, t) && Fixed(t)
    ensures T.AllLexed(Next(s).rest)
    ensures s.rest == [T.Tok(t, LexemeOf(t))] + Next(s).rest
  {
    ProperNext(s);
    FixedLexeme(Current(s));
  }

  lemma FixedKinds()
    ensures Fixed(T.PL) && Fixed(T.PR) && Fixed(T.COMMA) && Fixed(T.COLON) && Fixed(T.FUNC)
    ensures Fixed(T.BL) && Fixed(T.BR) && Fixed(T.IF) && Fixed(T.ELSE) && Fixed(T.WHILE) && Fixed(T.DO)
    ensures Fixed(T.ASSIGN) && Fixed(T.SEMICOLON) && Fixed(T.RETURN) && Fixed(T.IO_PRINT)
  {
  }

  lemma FixedLexeme(t: T.Tok)
    requires T.Proper(t) && Fixed(t.ty)
    ensures t.lexeme == LexemeOf(t.ty)
  {
  }

  /** The tree `c` accounts for the tokens between `s` and `r`, which it cannot go on with, for the
      messages, and for the expression `e`. */
  ghost predicate Accounts(k: FloatReader, s: PState, c: CExpr, level: nat, e: Option<Expr>, r: PState) {
    && AtLevel(c, level) && Stops(c, r.rest, level)
    && s.rest == Yield(c) + r.rest && r == After(s, Neat(c), r.rest)
    && Denote(k, s.scope, s.funcs, c) == e && T.AllLexed(r.rest)
  }

  /** What was parsed is used: an expression, and no error so far. */
  ghost predicate Clean(s: PState, r: ExprP) {
    T.AllLexed(s.rest) && r.e.Some? && !r.s.isError
  }

  lemma {:induction false} SoundLevel(k: FloatReader, s: PState, level: nat, r: ExprP) returns (c: CExpr)
    requires level <= 7 && r == ParseLevel(k, s, level) && Clean(s, r)
    ensures Accounts(k, s, c, level, r.e, r.s)
    decreases |s.rest|, 12 - level
  {
    hide Denote, Yield, ParseLevel, Accounts;
    FactorLevel(k, s);
    if level == 7 {
      c := SoundFactor(k, s, r);
    } else if level == 6 {
      c := SoundUnary(k, s, r);
    } else {
      var l := ParseLevel(k, s, level + 1);
      LevelSteps(k, s, level);
      if !At(l.s, LevelToken(level)) {
        c := SoundLevel(k, s, level + 1, l);
        LooserAccounts(k, s, c, level, l);
      } else {
        c := SoundBinary(k, s, level, l, r);
      }
    }
  }

  lemma LooserAccounts(k: FloatReader, s: PState, c: CExpr, level: nat, l: ExprP)
    requires Accounts(k, s, c, level + 1, l.e, l.s) && (level < 6 ==> !At(l.s, LevelToken(level)))
    ensures Accounts(k, s, c, level, l.e, l.s)
  {
    hide Denote, Yield, Neat, T.AllLexed;
    LooserLevel(c, level);
  }

  lemma LooserLevel(c: CExpr, level: nat)
    requires AtLevel(c, level + 1)
    ensures AtLevel(c, level)
  {
  }

  /** One level: the left side, and the right side after its operator. */
  lemma LevelSteps(k: FloatReader, s: PState, level: nat)
    requires level < 6
    ensures var l, p := ParseLevel(k, s, level + 1), ParseLevel(k, s, level);
      && (p.e.Some? ==> l.e.Some?) && (l.s.isError ==> p.s.isError)
      && (l.e.Some? && !At(l.s, LevelToken(level)) ==> p == l)
      && (l.e.Some? && At(l.s, LevelToken(level)) && p.e.Some? ==>
            var q := ParseLevel(k, Next(l.s), level);
            && q.e.Some? && OperandsFit(level, l.e.value.Type(), q.e.value.Type())
            && p == ExprP(Some(Binary(BinaryType(level, l.e.value.Type(), q.e.value.Type()),
                                      BinaryOperator(Current(l.s).lexeme), l.e.value, q.e.value)), q.s))
  {
  }

  lemma {:induction false} SoundBinary(k: FloatReader, s: PState, level: nat, l: ExprP, r: ExprP) returns (c: CExpr)
    requires level < 6 && l == ParseLevel(k, s, level + 1) && At(l.s, LevelToken(level))
    requires r == ParseLevel(k, s, level) && Clean(s, r)
    ensures Accounts(k, s, c, level, r.e, r.s)
    decreases |s.rest|, 12 - level, 0
  {
    hide ParseLevel, Denote, AtLevel, Accounts, Yield, T.AllLexed;
    LevelSteps(k, s, level);
    var c1 := SoundLevel(k, s, level + 1, l);
    var s1 := Next(l.s);
    var q := ParseLevel(k, s1, level);
    AccountsLexed(k, s, c1, level + 1, l);
    LexedNext(l.s);
    var c2 := SoundLevel(k, s1, level, q);
    c := CBinary(level, Current(l.s).lexeme, c1, c2);
    BinaryAccounts(k, s, level, c1, c2, l, q, r);
  }

  lemma AccountsLexed(k: FloatReader, s: PState, c: CExpr, level: nat, l: ExprP)
    requires Accounts(k, s, c, level, l.e, l.s)
    ensures T.AllLexed(l.s.rest)
  {
  }

  lemma BinaryAccounts(k: FloatReader, s: PState, level: nat, a: CExpr, b: CExpr, l: ExprP, q: ExprP, r: ExprP)
    requires level < 6 && At(l.s, LevelToken(level)) && l.e.Some? && q.e.Some?
    requires OperandsFit(level, l.e.value.Type(), q.e.value.Type())
    requires Accounts(k, s, a, level + 1, l.e, l.s) && Accounts(k, Next(l.s), b, level, q.e, q.s)
    requires r == ExprP(Some(Binary(BinaryType(level, l.e.value.Type(), q.e.value.Type()),
                                    BinaryOperator(Current(l.s).lexeme), l.e.value, q.e.value)), q.s)
    ensures Accounts(k, s, CBinary(level, Current(l.s).lexeme, a, b), level, r.e, r.s)
  {
    hide T.AllLexed, BinaryOperator, OperandsFit, BinaryType;
    var op := Current(l.s).lexeme;
    BinaryDenotes(k, s, level, op, a, b, l.e.value, q.e.value);
    hide Denote, Yield, AtLevel, Neat;
    assert l.s.rest == [T.Tok(LevelToken(level), op)] + Next(l.s).rest;
    BinaryLayout(CBinary(level, op, a, b), r.s.rest);
    BinaryLevel(level, op, a, b);
  }

  lemma BinaryLevel(level: nat, op: string, a: CExpr, b: CExpr)
    requires level < 6 && AtLevel(a, level + 1) && AtLevel(b, level) && !EndsOpen(a)
    ensures AtLevel(CBinary(level, op, a, b), level)
  {
  }

  lemma BinaryDenotes(k: FloatReader, s: PState, level: nat, op: string, a: CExpr, b: CExpr, x: Expr, y: Expr)
    requires level < 6 && OperandsFit(level, x.Type(), y.Type())
    requires Denote(k, s.scope, s.funcs, a) == Some(x) && Denote(k, s.scope, s.funcs, b) == Some(y)
    ensures Denote(k, s.scope, s.funcs, CBinary(level, op, a, b)) ==
      Some(Binary(BinaryType(level, x.Type(), y.Type()), BinaryOperator(op), x, y))
  {
  }

  lemma {:induction false} SoundUnary(k: FloatReader, s: PState, r: ExprP) returns (c: CExpr)
    requires r == ParseUnary(k, s) && Clean(s, r)
    ensures Accounts(k, s, c, 6, r.e, r.s)
    decreases |s.rest|, 3
  {
    hide ParseFactor, T.AllLexed, Accounts;
    if At(s, T.ADD) || At(s, T.NOT) {
      LexedNext(s);
      var q := ParseUnary(k, Next(s));
      var c1 := SoundUnary(k, Next(s), q);
      c := CUnary(Current(s), c1);
      UnaryAccounts(k, s, c1, q, r);
    } else {
      c := SoundFactor(k, s, r);
      LooserAccounts(k, s, c, 6, r);
    }
  }

  lemma UnaryAccounts(k: FloatReader, s: PState, c: CExpr, q: ExprP, r: ExprP)
    requires (At(s, T.ADD) || At(s, T.NOT)) && s.rest == [Current(s)] + Next(s).rest
    requires Accounts(k, Next(s), c, 6, q.e, q.s) && q.e.Some? && UnaryFits(Current(s).ty, q.e.value.Type())
    requires r == ExprP(Some(Unary(UnaryOperator(Current(s).lexeme), q.e.value)), q.s)
    ensures Accounts(k, s, CUnary(Current(s), c), 6, r.e, r.s)
  {
    hide T.AllLexed, UnaryFits, UnaryOperator;
    assert s.rest == Yield(CUnary(Current(s), c)) + r.s.rest;
  }

  lemma {:induction false} SoundFactor(k: FloatReader, s: PState, r: ExprP) returns (c: CExpr)
    requires r == ParseFactor(k, s) && Clean(s, r)
    ensures Accounts(k, s, c, 7, r.e, r.s)
    decreases |s.rest|, 2
  {
    hide ParseLevel, ParseFuncall, Denote, Yield, T.AllLexed, Fixed, Accounts;
    FixedKinds();
    if At(s, T.PL) {
      var q := ParseLevel(k, Next(s), 0);
      Spelled(s, T.PL);
      var c1 := SoundLevel(k, Next(s), 0, q);
      c := CParen(c1);
      ParenAccounts(k, s, c1, q);
    } else if At(s, T.SYMBOL) && At(Next(s), T.PL) {
      c := SoundCall(k, s, r);
    } else {
      c := SoundAtom(k, s, r);
    }
  }

  lemma ParenAccounts(k: FloatReader, s: PState, c: CExpr, q: ExprP)
    requires s.rest == [OPEN] + Next(s).rest && Accounts(k, Next(s), c, 0, q.e, q.s) && At(q.s, T.PR)
    ensures Accounts(k, s, CParen(c), 7, q.e, Next(q.s))
  {
    hide T.AllLexed, Fixed;
    FixedKinds();
    Spelled(q.s, T.PR);
    assert s.rest == Yield(CParen(c)) + Next(q.s).rest;
  }

  lemma SoundAtom(k: FloatReader, s: PState, r: ExprP) returns (c: CExpr)
    requires r == ParseFactor(k, s) && Clean(s, r)
    requires !At(s, T.PL) && !(At(s, T.SYMBOL) && At(Next(s), T.PL))
    ensures Accounts(k, s, c, 7, r.e, r.s)
  {
    hide ParseLevel, ParseFuncall;
    ProperNext(s);
    var t := Current(s);
    c := if t.ty.SYMBOL? then CVar(t.lexeme)
         else if t.ty.BOOL? then CBool(t.lexeme)
         else if t.ty.INTEGER? then CInt(t.lexeme)
         else CFloat(t.lexeme);
    assert s.rest == Yield(c) + r.s.rest;
  }

  /** An expression after the current token. */
  ghost predicate AccountsNext(k: FloatReader, s: PState, c: CExpr, r: ExprP) {
    && AtLevel(c, 0) && Stops(c, r.s.rest, 0) && r.e.Some? && Denote(k, s.scope, s.funcs, c) == r.e
    && s.rest == [Current(s)] + (Yield(c) + r.s.rest) && r.s == After(s, Neat(c), r.s.rest) && T.AllLexed(r.s.rest)
  }

  lemma {:induction false} SoundExpression(k: FloatReader, s: PState, r: ExprP) returns (c: CExpr)
    requires r == ParseExpression(k, s) && Clean(s, r)
    ensures s.rest != [] && AccountsNext(k, s, c, r)
    decreases |s.rest|, 13
  {
    hide ParseLevel, AtLevel, Denote, Yield, T.AllLexed, Neat, Stops;
    LexedNext(s);
    c := SoundLevel(k, Next(s), 0, r);
  }

  lemma {:induction false} SoundCall(k: FloatReader, s: PState, r: ExprP) returns (c: CExpr)
    requires At(s, T.SYMBOL) && At(Next(s), T.PL)
    requires r == ParseFuncall(k, s) && Clean(s, r)
    ensures c.CCall? && Accounts(k, s, c, 7, r.e, r.s)
    decreases |s.rest|, 1
  {
    hide ParseArgs, AtLevel, AccountsArgs, Accounts, T.AllLexed, Advances;
    var a := ParseArgs(k, s);
    FuncallSteps(k, s);
    var args, z := SoundArgs(k, s, a);
    c := CCall(Current(s).lexeme, args, z);
    CallAccounts(k, s, args, z, a, r);
  }

  lemma FuncallSteps(k: FloatReader, s: PState)
    requires s.rest != [] && ParseFuncall(k, s).e.Some? && !ParseFuncall(k, s).s.isError
    ensures var a, t := ParseArgs(k, s), Found(s.funcs, Current(s).lexeme);
      t.Some? && !a.s.isError && ParseFuncall(k, s) == ExprP(Some(Call(Current(s).lexeme, a.es, t.value)), Next(a.s))
  {
    hide ParseArgs;
    assert Found(s.funcs, Current(s).lexeme).Some? ==> Touch(s.funcs, Current(s).lexeme) == s.funcs;
  }

  /** Where the arguments `args` have ended: on what closes them. */
  ghost predicate Closes(s: PState, args: seq<CExpr>, z: Closing, r: PState) {
    && (forall i :: 0 <= i < |args| ==> AtLevel(args[i], 0)) && MayClose(args, z)
    && r.rest == YieldClosing(z) + Next(r).rest && (z.Ended? ==> r.rest == [])
    && r == After(s, z.Closed? && NeatArgs(args), r.rest) && T.AllLexed(r.rest)
  }

  /** The arguments, from the callee's name to what closes them. */
  ghost predicate AccountsArgs(k: FloatReader, s: PState, args: seq<CExpr>, z: Closing, a: ArgsP) {
    && Closes(s, args, z, a.s) && DenoteArgs(k, s.scope, s.funcs, args) == Some(a.es)
    && s.rest == [Current(s), OPEN] + (YieldArgs(args) + a.s.rest)
  }

  lemma CallAccounts(k: FloatReader, s: PState, args: seq<CExpr>, z: Closing, a: ArgsP, r: ExprP)
    requires At(s, T.SYMBOL) && AccountsArgs(k, s, args, z, a) && Found(s.funcs, Current(s).lexeme).Some?
    requires r == ExprP(Some(Call(Current(s).lexeme, a.es, Found(s.funcs, Current(s).lexeme).value)), Next(a.s))
    ensures var c := CCall(Current(s).lexeme, args, z); Accounts(k, s, c, 7, r.e, r.s)
  {
    hide T.AllLexed, DenoteArgs, YieldArgs, MayClose, NeatArgs;
    LexedNext(a.s);
    assert s.rest == Yield(CCall(Current(s).lexeme, args, z)) + r.s.rest;
  }

  /** The arguments between the callee's parentheses. */
  lemma {:induction false} SoundArgs(k: FloatReader, s: PState, a: ArgsP) returns (args: seq<CExpr>, z: Closing)
    requires s.rest != [] && At(Next(s), T.PL) && T.AllLexed(s.rest)
    requires a == ParseArgs(k, s) && !a.s.isError
    ensures AccountsArgs(k, s, args, z, a)
    decreases |s.rest|, 0
  {
    hide ParseArgsLoop, AtLevel, DenoteArgs, T.AllLexed, Fixed, YieldArgs, YieldClosing, MayClose, NeatArgs;
    FixedKinds();
    var s1 := Next(s);
    LexedNext(s);
    Spelled(s1, T.PL);
    if At(Next(s1), T.PR) {
      args, z := [], Closed;
      Spelled(Next(s1), T.PR);
      EmptyAccounts(k, s, a);
    } else {
      args, z := SoundLoop(k, s1, [], a);
      assert a.es[0..] == a.es;
      assert s.rest == [Current(s), OPEN] + (YieldArgs(args) + a.s.rest);
    }
  }

  lemma EmptyAccounts(k: FloatReader, s: PState, a: ArgsP)
    requires s.rest == [Current(s)] + ([OPEN] + a.s.rest) && a == ArgsP([], s.(rest := a.s.rest))
    requires T.AllLexed(a.s.rest) && a.s.rest == [CLOSE] + Next(a.s).rest
    ensures AccountsArgs(k, s, [], Closed, a)
  {
    hide T.AllLexed;
    NoArgs(k, s.scope, s.funcs);
    assert s.rest == [Current(s), OPEN] + (YieldArgs([]) + a.s.rest);
  }

  /** The arguments, from the token before the first one. */
  ghost predicate AccountsLoop(k: FloatReader, s: PState, acc: seq<Expr>, args: seq<CExpr>, z: Closing, a: ArgsP) {
    && args != [] && Closes(s, args, z, a.s)
    && acc <= a.es && DenoteArgs(k, s.scope, s.funcs, args) == Some(a.es[|acc|..])
    && s.rest == [Current(s)] + (YieldArgs(args) + a.s.rest)
  }

  lemma {:induction false} SoundLoop(k: FloatReader, s: PState, acc: seq<Expr>, a: ArgsP) returns (args: seq<CExpr>, z: Closing)
    requires s.rest != [] && !At(s, T.PR) && T.AllLexed(s.rest)
    requires a == ParseArgsLoop(k, s, acc) && !a.s.isError
    ensures AccountsLoop(k, s, acc, args, z, a)
    decreases |s.rest|, 14
  {
    hide ParseExpression, AccountsLoop, Accounts, Yield, AtLevel, AccountsNext, T.AllLexed;
    var r := ParseExpression(k, s);
    var c := SoundExpression(k, s, r);
    NextLexed(k, s, c, r);
    if At(r.s, T.COMMA) {
      var more;
      more, z := SoundLoop(k, r.s, acc + [r.e.value], a);
      args := [c] + more;
      LoopCons(k, s, acc, c, r, more, z, a);
    } else {
      args := [c];
      z := LoopOne(k, s, acc, c, r, a);
    }
  }

  lemma NextLexed(k: FloatReader, s: PState, c: CExpr, r: ExprP)
    requires AccountsNext(k, s, c, r)
    ensures T.AllLexed(r.s.rest)
  {
  }

  lemma LoopOne(k: FloatReader, s: PState, acc: seq<Expr>, c: CExpr, r: ExprP, a: ArgsP) returns (z: Closing)
    requires AccountsNext(k, s, c, r) && !At(r.s, T.COMMA)
    requires a == ArgsP(acc + [r.e.value], if At(r.s, T.PR) then r.s else Diagnose(r.s))
    ensures AccountsLoop(k, s, acc, [c], z, a)
  {
    hide AtLevel, Denote, DenoteArgs, Yield, YieldArgs, YieldClosing, T.AllLexed, Neat, NeatArgs, Stops, EndsOpen, MayClose, Next;
    ArgsOne(k, s.scope, s.funcs, c, r.e.value);
    assert a.es[|acc|..] == [r.e.value];
    NeatCons([c]);
    z := ClosingTaken(r.s);
    OneCloses(c, z, r.s.rest);
  }

  /** What the arguments end on. */
  lemma ClosingTaken(s: PState) returns (z: Closing)
    requires T.AllLexed(s.rest)
    ensures s.rest == YieldClosing(z) + Next(s).rest && Next(Diagnose(s)).rest == Next(s).rest
    ensures (s.rest == [] <==> z.Ended?) && (At(s, T.PR) <==> z.Closed?)
    ensures z.Skipped? ==> s.rest[0] == z.tok == Current(s)
  {
    hide T.AllLexed, Fixed;
    FixedKinds();
    LexedNext(s);
    z := if At(s, T.PR) then Closed else if s.rest == [] then Ended else Skipped(Current(s));
    if z.Closed? {
      Spelled(s, T.PR);
    }
  }

  /** One argument can end where its expression does. */
  lemma OneCloses(c: CExpr, z: Closing, rest: seq<T.Tok>)
    requires Stops(c, rest, 0) && (rest == [] <==> z.Ended?)
    requires z.Skipped? ==> rest[0] == z.tok && z.tok.ty != T.PR && z.tok.ty != T.COMMA
    ensures MayClose([c], z)
  {
    hide GoesOn;
  }

  lemma LoopCons(k: FloatReader, s: PState, acc: seq<Expr>, c: CExpr, r: ExprP, more: seq<CExpr>, z: Closing, a: ArgsP)
    requires AccountsNext(k, s, c, r) && At(r.s, T.COMMA) && AccountsLoop(k, r.s, acc + [r.e.value], more, z, a)
    ensures AccountsLoop(k, s, acc, [c] + more, z, a)
  {
    hide AtLevel, Denote, DenoteArgs, Yield, YieldArgs, T.AllLexed, Fixed, Neat, NeatArgs, MayClose, GoesOn, EndsOpen;
    FixedKinds();
    Spelled(r.s, T.COMMA);
    ArgsCons(k, s.scope, s.funcs, c, more, r.e.value, a.es[|acc| + 1..]);
    assert a.es[|acc|..] == [r.e.value] + a.es[|acc| + 1..];
    CommaLayout([Current(s)], Yield(c), YieldArgs(more), a.s.rest);
    assert ([c] + more)[1..] == more;
    NeatCons([c] + more);
    MoreClose(c, more, z);
  }

  lemma MoreClose(c: CExpr, more: seq<CExpr>, z: Closing)
    requires !EndsOpen(c) && MayClose(more, z) && more != []
    ensures MayClose([c] + more, z)
  {
    hide GoesOn, EndsOpen;
    var args := [c] + more;
    assert args[|args| - 1] == more[|more| - 1];
    forall i | 0 <= i < |args| && EndsOpen(args[i]) ensures i == |args| - 1 && z.Ended? {
      if i > 0 {
        assert args[i] == more[i - 1];
      }
    }
  }

  lemma CommaLayout(t: seq<T.Tok>, a: seq<T.Tok>, b: seq<T.Tok>, rest: seq<T.Tok>)
    ensures t + (a + ([COMMA_TOK] + (b + rest))) == t + ((a + [COMMA_TOK] + b) + rest)
  {
  }

  lemma ArgsOne(k: FloatReader, scope: Table, funcs: Table, c: CExpr, e: Expr)
    requires Denote(k, scope, funcs, c) == Some(e)
    ensures DenoteArgs(k, scope, funcs, [c]) == Some([e]) && YieldArgs([c]) == Yield(c)
  {
    NoArgs(k, scope, funcs);
    assert DenoteArgs(k, scope, funcs, [c][1..]) == Some([]);
    assert [e] + [] == [e];
  }

  lemma ArgsCons(k: FloatReader, scope: Table, funcs: Table, c: CExpr, cs: seq<CExpr>, e: Expr, es: seq<Expr>)
    requires Denote(k, scope, funcs, c) == Some(e) && DenoteArgs(k, scope, funcs, cs) == Some(es) && cs != []
    ensures DenoteArgs(k, scope, funcs, [c] + cs) == Some([e] + es)
    ensures YieldArgs([c] + cs) == Yield(c) + [COMMA_TOK] + YieldArgs(cs)
  {
    hide Denote, Yield;
    assert ([c] + cs)[1..] == cs;
  }
}
