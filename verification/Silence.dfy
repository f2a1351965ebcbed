/** When the parser gives up without setting its error flag.  Some of its checks print a message that is
    not an error, and some print nothing; what they have in common is said here of the tokens alone. */
module Silence {
  import opened Wrappers
  import opened Ast
  import opened Parsing
  import opened Grammar
  import opened Completeness
  import opened CompleteStatements
  import opened CompleteFiles
  import opened ParserSoundness
  import opened SoundStatements
  import opened SoundFiles
  import T = Tokens

  predicate HeadIs(ts: seq<T.Tok>, t: T.TokenType) { ts != [] && ts[0].ty == t }

  // ----- readable beginnings -----

  /** The tokens begin with an expression that has a meaning and does not go on. */
  ghost predicate ExprThen(k: FloatReader, scope: Table, funcs: Table, ts: seq<T.Tok>, c: CExpr, rest: seq<T.Tok>) {
    ts == Yield(c) + rest && AtLevel(c, 0) && Stops(c, rest, 0) && Denote(k, scope, funcs, c).Some?
  }

  ghost predicate TestThen(k: FloatReader, scope: Table, funcs: Table, ts: seq<T.Tok>, c: CExpr, rest: seq<T.Tok>) {
    ts == Yield(c) + rest && AtLevel(c, 0) && Stops(c, rest, 0) && |rest| < |ts| && DenoteCondition(k, scope, funcs, c).Some?
  }

  ghost predicate StmtThen(k: FloatReader, scope: Table, funcs: Table, ts: seq<T.Tok>, c: CStmt, rest: seq<T.Tok>) {
    && ts == YieldStmt(c) + rest && WellFormed(c) && MayFollow(c, rest) && |rest| < |ts|
    && DenoteStmt(k, scope, funcs, c).Some?
  }

  /** The parameters and the colon. */
  ghost predicate SignatureThen(ts: seq<T.Tok>, parens: bool, ps: seq<CParam>, comma: bool, z: Ending, rest: seq<T.Tok>) {
    && ts == YieldParens(parens, ps, comma, z) + ([T.Tok(T.COLON, ":")] + rest)
    && (comma ==> ps != []) && (ps != [] || !z.Shut? ==> parens) && (z.Nameless? && ps != [] ==> comma)
    && |rest| < |ts|
  }

  ghost predicate FunctionThen(k: FloatReader, funcs: Table, ts: seq<T.Tok>, c: CFunction, rest: seq<T.Tok>) {
    && ts == YieldFunction(c) + rest && WellFormedFunction(c) && MayFollow(c.body, rest) && |rest| < |ts|
    && DenoteFunction(k, funcs, c).Some?
  }

  // ----- where it gets stuck -----

  /** No expression starts, or one in parentheses gets stuck or is not closed. */
  ghost predicate StuckExpr(k: FloatReader, scope: Table, funcs: Table, ts: seq<T.Tok>)
    decreases |ts|
  {
    || ts == [] || !StartsExpr(ts[0].ty)
    || (HeadIs(ts, T.PL) && (StuckExpr(k, scope, funcs, ts[1..]) || Unclosed(k, scope, funcs, ts[1..])))
  }

  ghost predicate Unclosed(k: FloatReader, scope: Table, funcs: Table, ts: seq<T.Tok>) {
    exists c, rest :: ExprThen(k, scope, funcs, ts, c, rest) && HeadIsNot(rest, T.PR)
  }

  /** After `if` or `while`. */
  ghost predicate StuckTest(k: FloatReader, scope: Table, funcs: Table, ts: seq<T.Tok>) {
    ts != [] && ts[0].ty != T.EOF_TOKEN && StuckExpr(k, scope, funcs, ts)
  }

  /** A name is missing, or the sign after it. */
  predicate StuckDeclaration(scope: Table, ts: seq<T.Tok>) {
    |ts| < 2 || !ts[1].ty.SYMBOL? || (ts[1].lexeme !in scope && !HeadIs(ts[2..], T.ASSIGN))
  }

  predicate StuckAssignment(scope: Table, ts: seq<T.Tok>)
    requires ts != []
  {
    Found(scope, ts[0].lexeme).Some? && !HeadIs(ts[1..], T.ASSIGN) && !HeadIs(ts[1..], T.PL)
  }

  ghost predicate StuckStmt(k: FloatReader, scope: Table, funcs: Table, ts: seq<T.Tok>)
    decreases |ts|, 1
  {
    && ts != []
    && match ts[0].ty
       case BL => StuckBlock(k, scope, funcs, ts[1..])
       case IF => StuckTest(k, scope, funcs, ts[1..]) || exists c, rest :: StuckBranch(k, scope, funcs, ts[1..], c, rest)
       case WHILE => StuckTest(k, scope, funcs, ts[1..]) || exists c, rest :: StuckBody(k, scope, funcs, ts[1..], c, rest)
       case DO => StuckStmt(k, scope, funcs, ts[1..]) || exists c, rest :: StuckEnd(k, scope, funcs, ts[1..], c, rest)
       case TYPE => StuckDeclaration(scope, ts)
       case SYMBOL => StuckAssignment(scope, ts)
       case IO_PRINT => false
       case RETURN => false
       case EOF_TOKEN => false
       case _ => true
  }

  ghost predicate StuckBody(k: FloatReader, scope: Table, funcs: Table, ts: seq<T.Tok>, c: CExpr, rest: seq<T.Tok>)
    decreases |ts|, 2
  {
    TestThen(k, scope, funcs, ts, c, rest) && StuckStmt(k, scope, funcs, rest)
  }

  ghost predicate StuckBranch(k: FloatReader, scope: Table, funcs: Table, ts: seq<T.Tok>, c: CExpr, rest: seq<T.Tok>)
    decreases |ts|, 2
  {
    TestThen(k, scope, funcs, ts, c, rest)
    && (StuckStmt(k, scope, funcs, rest) || exists a, more :: StuckElse(k, scope, funcs, rest, a, more))
  }

  ghost predicate StuckElse(k: FloatReader, scope: Table, funcs: Table, ts: seq<T.Tok>, a: CStmt, rest: seq<T.Tok>)
    decreases |ts|, 1
  {
    && StmtThen(k, scope, funcs, ts, a, rest) && HeadIs(rest, T.ELSE)
    && StuckStmt(k, DenoteStmt(k, scope, funcs, a).value.scope, funcs, rest[1..])
  }

  /** Where `while` should follow the body of a `do`. */
  ghost predicate StuckEnd(k: FloatReader, scope: Table, funcs: Table, ts: seq<T.Tok>, c: CStmt, rest: seq<T.Tok>) {
    && StmtThen(k, scope, funcs, ts, c, rest)
    && (HeadIs(rest, T.WHILE) ==> StuckTest(k, DenoteStmt(k, scope, funcs, c).value.scope, funcs, rest[1..]))
  }

  /** After an opening brace. */
  ghost predicate StuckBlock(k: FloatReader, scope: Table, funcs: Table, ts: seq<T.Tok>)
    decreases |ts|, 3
  {
    || ts == []
    || (!HeadIs(ts, T.BR)
        && (StuckStmt(k, scope, funcs, ts) || exists c, rest :: StuckLater(k, scope, funcs, ts, c, rest)))
  }

  ghost predicate StuckLater(k: FloatReader, scope: Table, funcs: Table, ts: seq<T.Tok>, c: CStmt, rest: seq<T.Tok>)
    decreases |ts|, 2
  {
    StmtThen(k, scope, funcs, ts, c, rest) && StuckBlock(k, DenoteStmt(k, scope, funcs, c).value.scope, funcs, rest)
  }

  /** After `func`: a name is missing, or the colon, or the type, or the body gets stuck. */
  ghost predicate StuckFunction(k: FloatReader, funcs: Table, ts: seq<T.Tok>) {
    || !HeadIs(ts, T.SYMBOL)
    || (forall parens, ps, comma, z, rest :: !SignatureThen(ts[1..], parens, ps, comma, z, rest))
    || exists parens, ps, comma, z, rest :: StuckAfter(k, funcs, ts, parens, ps, comma, z, rest)
  }

  ghost predicate StuckAfter(k: FloatReader, funcs: Table, ts: seq<T.Tok>, parens: bool, ps: seq<CParam>, comma: bool, z: Ending,
                             rest: seq<T.Tok>) {
    && ts != [] && SignatureThen(ts[1..], parens, ps, comma, z, rest)
    && (HeadIs(rest, T.TYPE) ==>
          StuckStmt(k, ParamScope(DenoteParams(ps)), Insert(funcs, ts[0].lexeme, FromString(rest[0].lexeme)), rest[1..]))
  }

  /** A token of no kind, or a function that gets stuck, perhaps after others that do not. */
  ghost predicate StuckFile(k: FloatReader, funcs: Table, ts: seq<T.Tok>)
    decreases |ts|, 1
  {
    || HeadIs(ts, T.ERROR_TOKEN)
    || (HeadIs(ts, T.FUNC)
        && (StuckFunction(k, funcs, ts[1..]) || exists c, rest :: StuckNext(k, funcs, ts, c, rest)))
  }

  ghost predicate StuckNext(k: FloatReader, funcs: Table, ts: seq<T.Tok>, c: CFunction, rest: seq<T.Tok>)
    decreases |ts|, 0
  {
    FunctionThen(k, funcs, ts, c, rest) && StuckFile(k, Insert(funcs, c.name, FromString(c.ty)), rest)
  }

  // ----- expressions -----

  /** Nothing was parsed, and there was no error. */
  ghost predicate Quiet(s: PState, r: ExprP) {
    T.AllLexed(s.rest) && r.e.None? && !r.s.isError
  }

  lemma {:induction false} QuietLevel(k: FloatReader, s: PState, level: nat)
    requires level <= 6 && Quiet(s, ParseLevel(k, s, level))
    ensures StuckExpr(k, s.scope, s.funcs, s.rest)
    decreases |s.rest|, 12 - level
  {
    hide ParseLevel, StuckExpr, T.AllLexed;
    if level < 6 {
      BinaryIsLoud(k, s, level);
      QuietLevel(k, s, level + 1);
    } else {
      FactorLevel(k, s);
      UnaryIsLoud(k, s);
      QuietFactor(k, s);
    }
  }

  lemma BinaryIsLoud(k: FloatReader, s: PState, level: nat)
    requires level < 6 && ParseLevel(k, s, level).e.None? && !ParseLevel(k, s, level).s.isError
    ensures ParseLevel(k, s, level + 1) == ParseLevel(k, s, level)
  {
  }

  lemma UnaryIsLoud(k: FloatReader, s: PState)
    requires ParseUnary(k, s).e.None? && !ParseUnary(k, s).s.isError
    ensures !At(s, T.ADD) && !At(s, T.NOT) && ParseFactor(k, s) == ParseUnary(k, s)
  {
    hide ParseFactor;
  }

  lemma {:induction false} QuietFactor(k: FloatReader, s: PState)
    requires Quiet(s, ParseFactor(k, s)) && !At(s, T.ADD) && !At(s, T.NOT)
    ensures StuckExpr(k, s.scope, s.funcs, s.rest)
    decreases |s.rest|, 5
  {
    hide ParseLevel, T.AllLexed, ParseFuncall, ReadInt;
    if At(s, T.PL) {
      LexedNext(s);
      var r := ParseLevel(k, Next(s), 0);
      if r.e.None? {
        QuietLevel(k, Next(s), 0);
      } else {
        var c := SoundLevel(k, Next(s), 0, r);
        assert ExprThen(k, s.scope, s.funcs, s.rest[1..], c, r.s.rest);
        assert Unclosed(k, s.scope, s.funcs, s.rest[1..]);
      }
    } else if At(s, T.SYMBOL) {
      CallIsLoud(k, s);
    }
  }

  lemma CallIsLoud(k: FloatReader, s: PState)
    requires s.rest != []
    ensures ParseFuncall(k, s).e.None? ==> ParseFuncall(k, s).s.isError
  {
  }

  lemma QuietTest(k: FloatReader, s: PState)
    requires Quiet(s, ParseCondition(k, s)) && s.rest != []
    ensures StuckTest(k, s.scope, s.funcs, s.rest[1..])
  {
    hide ParseLevel, T.AllLexed, StuckExpr;
    LexedNext(s);
    QuietLevel(k, Next(s), 0);
  }

  // ----- statements -----

  ghost predicate QuietStmt(s: PState, r: StmtP) {
    T.AllLexed(s.rest) && r.st.None? && !r.s.isError
  }

  lemma TestRead(k: FloatReader, s: PState, q: ExprP) returns (c: CExpr)
    requires s.rest != [] && q == ParseCondition(k, s) && Clean(s, q)
    ensures TestThen(k, s.scope, s.funcs, s.rest[1..], c, q.s.rest)
    ensures T.AllLexed(q.s.rest) && q.s.scope == s.scope && q.s.funcs == s.funcs && |q.s.rest| < |s.rest|
  {
    hide ParseCondition, AtLevel, DenoteCondition, Yield, T.AllLexed, Stops;
    c := SoundCondition(k, s, q);
    YieldStarts(c, 0);
    assert s.rest[1..] == Yield(c) + q.s.rest;
  }

  lemma StmtRead(k: FloatReader, s: PState, r: StmtP) returns (c: CStmt)
    requires r == ParseStatement(k, s) && CleanStmt(s, r)
    ensures StmtThen(k, s.scope, s.funcs, s.rest, c, r.s.rest)
    ensures DenoteStmt(k, s.scope, s.funcs, c).value.scope == r.s.scope
    ensures T.AllLexed(r.s.rest) && r.s.funcs == s.funcs && |r.s.rest| < |s.rest|
  {
    hide ParseStatement, WellFormed, DenoteStmt, YieldStmt, T.AllLexed, OpenIf, StmtEndsOpen, MayFollow;
    c := SoundStmt(k, s, r);
    StmtStarts(c);
  }

  lemma {:induction false} QuietStatement(k: FloatReader, s: PState)
    requires QuietStmt(s, ParseStatement(k, s))
    ensures StuckStmt(k, s.scope, s.funcs, s.rest)
    decreases |s.rest|, 11
  {
    hide ParseStatement, StuckStmt, T.AllLexed;
    NotAtEnd(k, s);
    match Current(s).ty
    case BL => QuietBlock(k, s);
    case IF => QuietIf(k, s);
    case WHILE => QuietWhile(k, s);
    case DO => QuietDo(k, s);
    case _ => QuietSimple(k, s);
  }

  lemma NotAtEnd(k: FloatReader, s: PState)
    requires ParseStatement(k, s).st.None? && !ParseStatement(k, s).s.isError
    ensures s.rest != [] && !At(s, T.EOF_TOKEN)
  {
  }

  lemma QuietSimple(k: FloatReader, s: PState)
    requires QuietStmt(s, ParseStatement(k, s)) && s.rest != [] && !At(s, T.EOF_TOKEN)
    requires !At(s, T.BL) && !At(s, T.IF) && !At(s, T.WHILE) && !At(s, T.DO)
    ensures !At(s, T.IO_PRINT) && !At(s, T.RETURN)
    ensures StuckStmt(k, s.scope, s.funcs, s.rest)
  {
    hide ParseStatement, ParseDeclaration, ParseAssignment, Semicolon, T.AllLexed, StuckStmt, StuckDeclaration, StuckAssignment,
      Next;
    Dispatch(k, s);
    if At(s, T.TYPE) {
      NoErrorBefore(ParseDeclaration(k, s));
      QuietDeclaration(k, s);
    } else if At(s, T.SYMBOL) && !At(Next(s), T.PL) {
      NoErrorBefore(ParseAssignment(k, s));
      QuietAssignment(k, s);
    } else {
      OthersAreLoud(k, s);
    }
    SimpleStuck(k, s.scope, s.funcs, s.rest);
  }

  lemma SimpleStuck(k: FloatReader, scope: Table, funcs: Table, ts: seq<T.Tok>)
    requires ts != [] && !HeadIs(ts, T.EOF_TOKEN) && !HeadIs(ts, T.IO_PRINT) && !HeadIs(ts, T.RETURN)
    requires !HeadIs(ts, T.BL) && !HeadIs(ts, T.IF) && !HeadIs(ts, T.WHILE) && !HeadIs(ts, T.DO)
    ensures StuckStmt(k, scope, funcs, ts) <==>
      if HeadIs(ts, T.TYPE) then StuckDeclaration(scope, ts)
      else HeadIs(ts, T.SYMBOL) ==> StuckAssignment(scope, ts)
  {
    hide StuckDeclaration, StuckAssignment, StuckExpr, StuckBlock, StuckBranch, StuckBody, StuckEnd;
  }

  lemma QuietDeclaration(k: FloatReader, s: PState)
    requires s.rest != [] && ParseDeclaration(k, s).st.None? && !ParseDeclaration(k, s).s.isError
    ensures StuckDeclaration(s.scope, s.rest)
  {
    hide ParseExpression, Assignable, FromString;
  }

  lemma QuietAssignment(k: FloatReader, s: PState)
    requires s.rest != [] && !At(Next(s), T.PL) && ParseAssignment(k, s).st.None? && !ParseAssignment(k, s).s.isError
    ensures StuckAssignment(s.scope, s.rest)
  {
    hide ParseExpression, Assignable;
  }

  lemma OthersAreLoud(k: FloatReader, s: PState)
    requires s.rest != [] && (At(s, T.SYMBOL) ==> At(Next(s), T.PL))
    ensures At(s, T.IO_PRINT) || At(s, T.RETURN) || At(s, T.SYMBOL) ==>
      ParseStatement(k, s).st.None? ==> ParseStatement(k, s).s.isError
  {
    hide ParseStatement, ParseReturn, ParsePrint, ParseCallStatement, Semicolon;
    Dispatch(k, s);
    SimpleDispatch(k, s);
    NoErrorBefore(ParseReturn(k, s));
    NoErrorBefore(ParsePrint(k, s));
    NoErrorBefore(ParseCallStatement(k, s));
    SimpleAreLoud(k, s);
  }

  lemma SimpleDispatch(k: FloatReader, s: PState)
    ensures At(s, T.IO_PRINT) ==> ParseStatement(k, s) == Semicolon(ParsePrint(k, s))
    ensures At(s, T.RETURN) ==> ParseStatement(k, s) == Semicolon(ParseReturn(k, s))
  {
    hide ParsePrint, ParseReturn, Semicolon;
  }

  lemma SimpleAreLoud(k: FloatReader, s: PState)
    requires s.rest != []
    ensures ParsePrint(k, s).st.None? ==> ParsePrint(k, s).s.isError
    ensures ParseReturn(k, s).st.None? ==> ParseReturn(k, s).s.isError
    ensures ParseCallStatement(k, s).st.None? ==> ParseCallStatement(k, s).s.isError
  {
    hide ParseExpression, ParseFuncall;
    CallIsLoud(k, s);
  }

  lemma {:induction false} QuietIf(k: FloatReader, s: PState)
    requires QuietStmt(s, ParseStatement(k, s)) && At(s, T.IF) && s.rest != []
    ensures StuckStmt(k, s.scope, s.funcs, s.rest)
    decreases |s.rest|, 10
  {
    hide ParseStatement, ParseCondition, T.AllLexed, StuckTest, TestThen, StmtThen, StuckStmt;
    Dispatch(k, s);
    var q := ParseCondition(k, s);
    if q.e.None? {
      QuietTest(k, s);
      IfIsStuck(k, s.scope, s.funcs, s.rest, CBool(""), []);
    } else {
      IfQuiet(k, s);
      var c := TestRead(k, s, q);
      var a := ParseStatement(k, q.s);
      if a.st.None? {
        QuietStatement(k, q.s);
        FirstIsStuck(k, s.scope, s.funcs, s.rest[1..], c, q.s.rest);
      } else {
        var thn := StmtRead(k, q.s, a);
        LexedNext(a.s);
        QuietStatement(k, Next(a.s));
        SecondIsStuck(k, s.scope, s.funcs, s.rest[1..], c, q.s.rest, thn, a.s.rest);
      }
      IfIsStuck(k, s.scope, s.funcs, s.rest, c, q.s.rest);
    }
  }

  /** A conditional statement that gets stuck. */
  lemma IfIsStuck(k: FloatReader, scope: Table, funcs: Table, ts: seq<T.Tok>, c: CExpr, rest: seq<T.Tok>)
    requires HeadIs(ts, T.IF) && (StuckTest(k, scope, funcs, ts[1..]) || StuckBranch(k, scope, funcs, ts[1..], c, rest))
    ensures StuckStmt(k, scope, funcs, ts)
  {
    hide StuckTest, TestThen, StuckElse;
  }

  lemma WhereIfIsStuck(k: FloatReader, scope: Table, funcs: Table, ts: seq<T.Tok>) returns (c: CExpr, rest: seq<T.Tok>)
    requires HeadIs(ts, T.IF) && StuckStmt(k, scope, funcs, ts) && !StuckTest(k, scope, funcs, ts[1..])
    ensures StuckBranch(k, scope, funcs, ts[1..], c, rest)
  {
    hide StuckTest, TestThen, StuckElse;
    c, rest :| StuckBranch(k, scope, funcs, ts[1..], c, rest);
  }

  lemma FirstIsStuck(k: FloatReader, scope: Table, funcs: Table, ts: seq<T.Tok>, c: CExpr, rest: seq<T.Tok>)
    requires TestThen(k, scope, funcs, ts, c, rest) && StuckStmt(k, scope, funcs, rest)
    ensures StuckBranch(k, scope, funcs, ts, c, rest)
  {
    hide TestThen, StuckElse;
  }

  lemma SecondIsStuck(k: FloatReader, scope: Table, funcs: Table, ts: seq<T.Tok>, c: CExpr, rest: seq<T.Tok>,
                      a: CStmt, more: seq<T.Tok>)
    requires TestThen(k, scope, funcs, ts, c, rest) && StmtThen(k, scope, funcs, rest, a, more) && HeadIs(more, T.ELSE)
    requires StuckStmt(k, DenoteStmt(k, scope, funcs, a).value.scope, funcs, more[1..])
    ensures StuckBranch(k, scope, funcs, ts, c, rest)
  {
    hide TestThen, StmtThen;
    assert StuckElse(k, scope, funcs, rest, a, more);
  }

  lemma IfQuiet(k: FloatReader, s: PState)
    requires ParseIf(k, s).st.None? && !ParseIf(k, s).s.isError
    ensures var q := ParseCondition(k, s);
      q.e.Some? ==>
        var a := ParseStatement(k, q.s);
        var b := ParseStatement(k, Next(a.s));
        && !q.s.isError && !a.s.isError
        && (a.st.Some? ==> At(a.s, T.ELSE) && b.st.None? && !b.s.isError)
  {
    hide ParseStatement, ParseCondition;
  }

  lemma {:induction false} QuietWhile(k: FloatReader, s: PState)
    requires QuietStmt(s, ParseStatement(k, s)) && At(s, T.WHILE) && s.rest != []
    ensures StuckStmt(k, s.scope, s.funcs, s.rest)
    decreases |s.rest|, 10
  {
    hide ParseStatement, ParseCondition, T.AllLexed, StuckTest, TestThen, StuckStmt;
    Dispatch(k, s);
    var q := ParseCondition(k, s);
    if q.e.None? {
      QuietTest(k, s);
      WhileIsStuck(k, s.scope, s.funcs, s.rest, CBool(""), []);
    } else {
      WhileQuiet(k, s);
      var c := TestRead(k, s, q);
      QuietStatement(k, q.s);
      WhileIsStuck(k, s.scope, s.funcs, s.rest, c, q.s.rest);
    }
  }

  /** A loop that gets stuck. */
  lemma WhileIsStuck(k: FloatReader, scope: Table, funcs: Table, ts: seq<T.Tok>, c: CExpr, rest: seq<T.Tok>)
    requires HeadIs(ts, T.WHILE) && (StuckTest(k, scope, funcs, ts[1..]) || StuckBody(k, scope, funcs, ts[1..], c, rest))
    ensures StuckStmt(k, scope, funcs, ts)
  {
    hide StuckTest, TestThen;
  }

  lemma WhereWhileIsStuck(k: FloatReader, scope: Table, funcs: Table, ts: seq<T.Tok>) returns (c: CExpr, rest: seq<T.Tok>)
    requires HeadIs(ts, T.WHILE) && StuckStmt(k, scope, funcs, ts) && !StuckTest(k, scope, funcs, ts[1..])
    ensures StuckBody(k, scope, funcs, ts[1..], c, rest)
  {
    hide StuckTest, TestThen;
    c, rest :| StuckBody(k, scope, funcs, ts[1..], c, rest);
  }

  lemma WhileQuiet(k: FloatReader, s: PState)
    requires ParseWhile(k, s).st.None? && !ParseWhile(k, s).s.isError
    ensures var q := ParseCondition(k, s);
      q.e.Some? ==>
        var a := ParseStatement(k, q.s);
        !q.s.isError && a.st.None? && !a.s.isError
  {
    hide ParseStatement, ParseCondition;
  }

  lemma {:induction false} QuietDo(k: FloatReader, s: PState)
    requires QuietStmt(s, ParseStatement(k, s)) && At(s, T.DO) && s.rest != []
    ensures StuckStmt(k, s.scope, s.funcs, s.rest)
    decreases |s.rest|, 10
  {
    hide ParseStatement, ParseCondition, T.AllLexed, StuckTest, StmtThen, StuckStmt;
    Dispatch(k, s);
    LexedNext(s);
    var b := ParseStatement(k, Next(s));
    if b.st.None? {
      QuietStatement(k, Next(s));
      DoIsStuck(k, s.scope, s.funcs, s.rest, CBlock([]), []);
    } else {
      DoQuiet(k, s);
      var c := StmtRead(k, Next(s), b);
      if At(b.s, T.WHILE) {
        LexedNext(b.s);
        QuietTest(k, b.s);
      }
      DoIsStuck(k, s.scope, s.funcs, s.rest, c, b.s.rest);
    }
  }

  lemma DoIsStuck(k: FloatReader, scope: Table, funcs: Table, ts: seq<T.Tok>, c: CStmt, rest: seq<T.Tok>)
    requires HeadIs(ts, T.DO) && (StuckStmt(k, scope, funcs, ts[1..]) || StuckEnd(k, scope, funcs, ts[1..], c, rest))
    ensures StuckStmt(k, scope, funcs, ts)
  {
    hide StuckTest, StmtThen;
  }

  lemma DoQuiet(k: FloatReader, s: PState)
    requires s.rest != [] && ParseDoWhile(k, s).st.None? && !ParseDoWhile(k, s).s.isError
    ensures var b := ParseStatement(k, Next(s));
      var q := ParseCondition(k, b.s);
      !b.s.isError && (b.st.Some? && At(b.s, T.WHILE) ==> q.e.None? && !q.s.isError)
  {
    hide ParseStatement, ParseCondition;
  }

  lemma {:induction false} QuietBlock(k: FloatReader, s: PState)
    requires QuietStmt(s, ParseStatement(k, s)) && At(s, T.BL) && s.rest != []
    ensures StuckStmt(k, s.scope, s.funcs, s.rest)
    decreases |s.rest|, 10
  {
    hide ParseStatement, ParseStatements, T.AllLexed, StuckBlock, StuckStmt;
    Dispatch(k, s);
    LexedNext(s);
    QuietSeq(k, Next(s), []);
    BlockIsStuck(k, s.scope, s.funcs, s.rest);
  }

  lemma BlockIsStuck(k: FloatReader, scope: Table, funcs: Table, ts: seq<T.Tok>)
    requires HeadIs(ts, T.BL)
    ensures StuckStmt(k, scope, funcs, ts) <==> StuckBlock(k, scope, funcs, ts[1..])
  {
    hide StuckLater;
  }

  lemma {:induction false} QuietSeq(k: FloatReader, s: PState, acc: seq<Stmt>)
    requires var b := ParseStatements(k, s, acc); T.AllLexed(s.rest) && b.sts.None? && !b.s.isError
    ensures StuckBlock(k, s.scope, s.funcs, s.rest)
    decreases |s.rest|, 12
  {
    hide ParseStatement, ParseStatements, T.AllLexed, StuckStmt, StmtThen;
    SeqQuiet(k, s, acc);
    if s.rest != [] {
      var r := ParseStatement(k, s);
      if r.st.None? {
        QuietStatement(k, s);
      } else {
        var c := StmtRead(k, s, r);
        QuietSeq(k, r.s, acc + [r.st.value]);
        assert StuckLater(k, s.scope, s.funcs, s.rest, c, r.s.rest);
      }
    }
  }

  lemma SeqQuiet(k: FloatReader, s: PState, acc: seq<Stmt>)
    requires var b := ParseStatements(k, s, acc); T.AllLexed(s.rest) && b.sts.None? && !b.s.isError
    ensures !At(s, T.BR)
    ensures s.rest != [] ==>
      var r := ParseStatement(k, s);
      && !r.s.isError
      && (r.st.Some? ==> ParseStatements(k, s, acc) == ParseStatements(k, r.s, acc + [r.st.value]))
  {
    hide ParseStatement;
    if s.rest != [] {
      ProperNext(s);
    }
  }

  // ----- functions and files -----

  lemma QuietFunction(k: FloatReader, s: PState)
    requires At(s, T.FUNC) && T.AllLexed(s.rest) && s.rest != []
    requires ParseFunction(k, s).d.None? && !ParseFunction(k, s).s.isError
    ensures StuckFunction(k, s.funcs, s.rest[1..])
  {
    hide ParseFunction, ParseSignature, T.AllLexed, SignatureThen, StuckAfter;
    LexedNext(s);
    var s1 := Next(s.(scope := map[]));
    LexedNext(s1);
    if At(s1, T.SYMBOL) {
      var a := ParseSignature(Next(s1));
      if At(a.s, T.COLON) {
        QuietAfter(k, s, s1, a);
      } else {
        NoSignature(Next(s1), a);
      }
    }
  }

  /** If there were a signature it would have been read. */
  lemma NoSignature(s: PState, a: ParamsP)
    requires a == ParseSignature(s) && s.scope == map[] && !At(a.s, T.COLON)
    ensures forall parens, ps, comma, z, rest :: !SignatureThen(s.rest, parens, ps, comma, z, rest)
  {
    hide ParseSignature, YieldParens, ParamScope, DenoteParams;
    if parens, ps, comma, z, rest :| SignatureThen(s.rest, parens, ps, comma, z, rest) {
      SignatureGives(s, parens, ps, comma, z, [T.Tok(T.COLON, ":")] + rest);
    }
  }

  lemma QuietAfter(k: FloatReader, s: PState, s1: PState, a: ParamsP)
    requires s1 == Next(s.(scope := map[])) && a == ParseSignature(Next(s1)) && s1.rest != []
    requires At(s1, T.SYMBOL) && At(a.s, T.COLON) && T.AllLexed(Next(s1).rest) && s.rest != []
    requires ParseFunction(k, s).d.None? && !ParseFunction(k, s).s.isError
    ensures StuckFunction(k, s.funcs, s.rest[1..])
  {
    hide ParseFunction, ParseSignature, T.AllLexed, StuckStmt, YieldParens, FromString, ParamScope, DenoteParams, Insert;
    var parens, ps, comma, z := SoundSignature(Next(s1), a);
    HeadToken(a.s);
    var s2 := Next(a.s);
    var ts, rest := s.rest[1..], s2.rest;
    assert SignatureThen(ts[1..], parens, ps, comma, z, rest);
    if At(s2, T.TYPE) {
      HeadToken(s2);
      BodyQuiet(k, s, s1, a);
      QuietStatement(k, Next(s2).(funcs := Insert(s2.funcs, Current(s1).lexeme, FromString(Current(s2).lexeme))));
    }
    assert StuckAfter(k, s.funcs, ts, parens, ps, comma, z, rest);
  }

  lemma BodyQuiet(k: FloatReader, s: PState, s1: PState, a: ParamsP)
    requires s1 == Next(s.(scope := map[])) && a == ParseSignature(Next(s1)) && At(s1, T.SYMBOL) && At(a.s, T.COLON)
    requires ParseFunction(k, s).d.None? && !ParseFunction(k, s).s.isError && At(Next(a.s), T.TYPE)
    requires FromString(Current(Next(a.s)).lexeme) != UNDEFINED
    ensures var s2 := Next(a.s);
      var b := ParseStatement(k, Next(s2).(funcs := Insert(s2.funcs, Current(s1).lexeme, FromString(Current(s2).lexeme))));
      b.st.None? && !b.s.isError
  {
    hide ParseSignature, ParseStatement, FromString, Insert;
  }

  lemma {:induction false} QuietFile(k: FloatReader, s: PState, acc: Program)
    requires var r := ParseFile(k, s, acc); T.AllLexed(s.rest) && r.root.Dummy? && !r.s.isError
    ensures StuckFile(k, s.funcs, s.rest)
    decreases |s.rest|
  {
    hide ParseFunction, ParseFile, T.AllLexed, StuckFunction, FunctionThen, FromString;
    FileQuiet(k, s, acc);
    if At(s, T.FUNC) {
      var f := ParseFunction(k, s);
      if f.d.None? {
        QuietFunction(k, s);
      } else {
        var c := FunctionRead(k, s, f);
        QuietFile(k, f.s, acc + [f.d.value]);
        assert StuckNext(k, s.funcs, s.rest, c, f.s.rest);
      }
    }
  }

  lemma FileQuiet(k: FloatReader, s: PState, acc: Program)
    requires var r := ParseFile(k, s, acc); r.root.Dummy? && !r.s.isError
    ensures s.rest != [] && (At(s, T.ERROR_TOKEN) || At(s, T.FUNC))
    ensures At(s, T.FUNC) ==>
      var f := ParseFunction(k, s);
      && !f.s.isError
      && (f.d.Some? ==> ParseFile(k, s, acc) == ParseFile(k, f.s, acc + [f.d.value]))
  {
    hide ParseFunction;
  }

  lemma FunctionRead(k: FloatReader, s: PState, f: FunctionP) returns (c: CFunction)
    requires At(s, T.FUNC) && f == ParseFunction(k, s) && f.d.Some? && !f.s.isError && T.AllLexed(s.rest)
    ensures FunctionThen(k, s.funcs, s.rest, c, f.s.rest) && T.AllLexed(f.s.rest) && |f.s.rest| < |s.rest|
    ensures f.s.funcs == Insert(s.funcs, c.name, FromString(c.ty))
  {
    hide ParseFunction, T.AllLexed, WellFormedFunction, DenoteFunction, YieldFunction, FromString, Insert, NeatFunction, MayFollow;
    c := SoundFunction(k, s, f);
    FunctionStarts(c);
  }

  // ----- and conversely -----

  lemma {:induction false} StuckLevel(k: FloatReader, s: PState, level: nat)
    requires level <= 6 && StuckExpr(k, s.scope, s.funcs, s.rest) && !s.isError
    ensures var r := ParseLevel(k, s, level); r.e.None? && !r.s.isError
    decreases |s.rest|, 12 - level
  {
    hide ParseLevel, StuckExpr;
    if level < 6 {
      StuckLevel(k, s, level + 1);
      LevelDown(k, s, level);
    } else {
      FactorLevel(k, s);
      StuckStarts(k, s);
      StuckFactor(k, s);
    }
  }

  lemma StuckStarts(k: FloatReader, s: PState)
    requires StuckExpr(k, s.scope, s.funcs, s.rest)
    ensures !At(s, T.ADD) && !At(s, T.NOT) && ParseUnary(k, s) == ParseFactor(k, s)
  {
    hide ParseFactor, ParseLevel;
  }

  lemma {:induction false} StuckFactor(k: FloatReader, s: PState)
    requires StuckExpr(k, s.scope, s.funcs, s.rest) && !s.isError
    ensures var r := ParseFactor(k, s); r.e.None? && !r.s.isError
    decreases |s.rest|, 5
  {
    hide ParseLevel, ParseFuncall, ReadInt, AtLevel, Denote, Stops, Neat;
    if At(s, T.PL) {
      if StuckExpr(k, s.scope, s.funcs, s.rest[1..]) {
        StuckLevel(k, Next(s), 0);
      } else {
        var c, rest :| ExprThen(k, s.scope, s.funcs, s.rest[1..], c, rest) && HeadIsNot(rest, T.PR);
        CompleteLevel(k, Next(s), c, 0, Denote(k, s.scope, s.funcs, c).value, rest);
      }
    }
  }

  lemma StuckCondition(k: FloatReader, s: PState)
    requires s.rest != [] && StuckTest(k, s.scope, s.funcs, s.rest[1..]) && !s.isError
    ensures var r := ParseCondition(k, s); r.e.None? && !r.s.isError
  {
    hide ParseLevel, StuckExpr;
    StuckLevel(k, Next(s), 0);
  }

  /** What a readable condition or statement is parsed to. */
  lemma ReadTest(k: FloatReader, s: PState, c: CExpr, rest: seq<T.Tok>)
    requires s.rest != [] && TestThen(k, s.scope, s.funcs, s.rest[1..], c, rest)
    ensures var r := ParseCondition(k, s); r.e.Some? && r.s == After(s, Neat(c), rest)
  {
    hide ParseCondition, AtLevel, DenoteCondition, Yield, Stops, Neat;
    assert s.rest == [s.rest[0]] + (Yield(c) + rest);
    CompleteCondition(k, s, s.rest[0], c, DenoteCondition(k, s.scope, s.funcs, c).value, rest);
  }

  lemma ReadStmt(k: FloatReader, s: PState, c: CStmt, rest: seq<T.Tok>)
    requires StmtThen(k, s.scope, s.funcs, s.rest, c, rest)
    ensures var r, d := ParseStatement(k, s), DenoteStmt(k, s.scope, s.funcs, c).value;
      r.st.Some? && r.s == After(s, NeatStmt(c), rest).(scope := d.scope)
    ensures s.rest != [] && StartsStmt(s.rest[0].ty)
  {
    hide ParseStatement, WellFormed, DenoteStmt, YieldStmt, MayFollow, NeatStmt, StartsStmt;
    StmtStarts(c);
    CompleteStmt(k, s, c, DenoteStmt(k, s.scope, s.funcs, c).value, rest);
  }

  lemma {:induction false} StuckStatement(k: FloatReader, s: PState)
    requires StuckStmt(k, s.scope, s.funcs, s.rest) && !s.isError
    ensures var r := ParseStatement(k, s); r.st.None? && !r.s.isError
    decreases |s.rest|, 11
  {
    hide ParseStatement, StuckStmt;
    StuckNotAtEnd(k, s);
    match Current(s).ty
    case BL => StuckInBlock(k, s);
    case IF => StuckIf(k, s);
    case WHILE => StuckWhile(k, s);
    case DO => StuckDo(k, s);
    case _ => StuckSimple(k, s);
  }

  lemma StuckNotAtEnd(k: FloatReader, s: PState)
    requires StuckStmt(k, s.scope, s.funcs, s.rest)
    ensures s.rest != [] && !At(s, T.EOF_TOKEN) && !At(s, T.IO_PRINT) && !At(s, T.RETURN)
  {
  }

  lemma StuckSimple(k: FloatReader, s: PState)
    requires StuckStmt(k, s.scope, s.funcs, s.rest) && s.rest != [] && !At(s, T.EOF_TOKEN) && !s.isError
    requires !At(s, T.BL) && !At(s, T.IF) && !At(s, T.WHILE) && !At(s, T.DO) && !At(s, T.IO_PRINT) && !At(s, T.RETURN)
    ensures var r := ParseStatement(k, s); r.st.None? && !r.s.isError
  {
    hide ParseStatement, ParseDeclaration, ParseAssignment, StuckStmt, StuckDeclaration, StuckAssignment, Semicolon;
    SimpleStuck(k, s.scope, s.funcs, s.rest);
    Dispatch(k, s);
    if At(s, T.TYPE) {
      DeclarationIsQuiet(k, s);
      SemicolonIsQuiet(ParseDeclaration(k, s));
    } else if At(s, T.SYMBOL) {
      AssignmentIsQuiet(k, s);
      SemicolonIsQuiet(ParseAssignment(k, s));
    } else {
      OthersAreQuiet(k, s);
    }
  }

  lemma SemicolonIsQuiet(q: StmtP)
    ensures Semicolon(q).st == q.st && Semicolon(q).s.isError == q.s.isError
  {
  }

  lemma DeclarationIsQuiet(k: FloatReader, s: PState)
    requires s.rest != [] && StuckDeclaration(s.scope, s.rest) && !s.isError
    ensures ParseDeclaration(k, s).st.None? && !ParseDeclaration(k, s).s.isError
  {
    hide ParseExpression, FromString;
  }

  lemma AssignmentIsQuiet(k: FloatReader, s: PState)
    requires s.rest != [] && StuckAssignment(s.scope, s.rest) && !s.isError
    ensures !At(Next(s), T.PL) && ParseAssignment(k, s).st.None? && !ParseAssignment(k, s).s.isError
  {
    hide ParseExpression;
  }

  lemma OthersAreQuiet(k: FloatReader, s: PState)
    requires !StartsStmt(Current(s).ty) && !At(s, T.EOF_TOKEN)
    ensures ParseStatement(k, s) == StmtP(None, s)
  {
    hide ParseExpression, ParseFuncall, ParseDeclaration, ParseAssignment, ParseBlock, ParseIf, ParseWhile, ParseDoWhile;
  }

  lemma {:induction false} StuckWhile(k: FloatReader, s: PState)
    requires StuckStmt(k, s.scope, s.funcs, s.rest) && At(s, T.WHILE) && s.rest != [] && !s.isError
    ensures var r := ParseStatement(k, s); r.st.None? && !r.s.isError
    decreases |s.rest|, 10
  {
    hide ParseStatement, ParseCondition, StuckTest, TestThen, Neat, StuckStmt;
    Dispatch(k, s);
    if StuckTest(k, s.scope, s.funcs, s.rest[1..]) {
      StuckCondition(k, s);
    } else {
      var c, rest := WhereWhileIsStuck(k, s.scope, s.funcs, s.rest);
      ReadTest(k, s, c, rest);
      ShorterTest(k, s, c, rest);
      StuckStatement(k, After(s, Neat(c), rest));
    }
  }

  lemma ShorterTest(k: FloatReader, s: PState, c: CExpr, rest: seq<T.Tok>)
    requires s.rest != [] && TestThen(k, s.scope, s.funcs, s.rest[1..], c, rest)
    ensures |rest| < |s.rest|
  {
  }

  lemma {:induction false} StuckIf(k: FloatReader, s: PState)
    requires StuckStmt(k, s.scope, s.funcs, s.rest) && At(s, T.IF) && s.rest != [] && !s.isError
    ensures var r := ParseStatement(k, s); r.st.None? && !r.s.isError
    decreases |s.rest|, 10
  {
    hide ParseStatement, ParseCondition, StuckTest, TestThen, Neat, StuckElse, StuckStmt, StuckBranch;
    Dispatch(k, s);
    if StuckTest(k, s.scope, s.funcs, s.rest[1..]) {
      StuckCondition(k, s);
    } else {
      var c, rest := WhereIfIsStuck(k, s.scope, s.funcs, s.rest);
      BranchRead(k, s.scope, s.funcs, s.rest[1..], c, rest);
      ReadTest(k, s, c, rest);
      ShorterTest(k, s, c, rest);
      var s1 := After(s, Neat(c), rest);
      if StuckStmt(k, s.scope, s.funcs, rest) {
        StuckStatement(k, s1);
      } else {
        var a, more := SecondBranch(k, s.scope, s.funcs, s.rest[1..], c, rest);
        StuckSecond(k, s1, a, more);
      }
    }
  }

  lemma BranchRead(k: FloatReader, scope: Table, funcs: Table, ts: seq<T.Tok>, c: CExpr, rest: seq<T.Tok>)
    requires StuckBranch(k, scope, funcs, ts, c, rest)
    ensures TestThen(k, scope, funcs, ts, c, rest)
  {
    hide TestThen, StuckElse, StuckStmt;
  }

  lemma SecondBranch(k: FloatReader, scope: Table, funcs: Table, ts: seq<T.Tok>, c: CExpr, rest: seq<T.Tok>)
    returns (a: CStmt, more: seq<T.Tok>)
    requires StuckBranch(k, scope, funcs, ts, c, rest) && !StuckStmt(k, scope, funcs, rest)
    ensures StuckElse(k, scope, funcs, rest, a, more)
  {
    hide StuckStmt, StuckElse, TestThen;
    a, more :| StuckElse(k, scope, funcs, rest, a, more);
  }

  lemma {:induction false} StuckSecond(k: FloatReader, s: PState, a: CStmt, rest: seq<T.Tok>)
    requires StuckElse(k, s.scope, s.funcs, s.rest, a, rest) && !s.isError
    ensures var r := ParseStatement(k, s);
      var b := ParseStatement(k, Next(r.s));
      r.st.Some? && At(r.s, T.ELSE) && b.st.None? && !b.s.isError
    decreases |s.rest|, 10
  {
    hide ParseStatement, StmtThen, NeatStmt, StuckStmt;
    ReadStmt(k, s, a, rest);
    ShorterStmt(k, s, a, rest);
    StuckStatement(k, Next(ParseStatement(k, s).s));
  }

  lemma ShorterStmt(k: FloatReader, s: PState, c: CStmt, rest: seq<T.Tok>)
    requires StmtThen(k, s.scope, s.funcs, s.rest, c, rest)
    ensures |rest| < |s.rest|
  {
  }

  lemma {:induction false} StuckDo(k: FloatReader, s: PState)
    requires StuckStmt(k, s.scope, s.funcs, s.rest) && At(s, T.DO) && s.rest != [] && !s.isError
    ensures var r := ParseStatement(k, s); r.st.None? && !r.s.isError
    decreases |s.rest|, 10
  {
    hide ParseStatement, ParseCondition, StuckTest, StmtThen, NeatStmt;
    Dispatch(k, s);
    if StuckStmt(k, s.scope, s.funcs, s.rest[1..]) {
      StuckStatement(k, Next(s));
    } else {
      var c, rest :| StuckEnd(k, s.scope, s.funcs, s.rest[1..], c, rest);
      ReadStmt(k, Next(s), c, rest);
      var b := ParseStatement(k, Next(s));
      if At(b.s, T.WHILE) {
        StuckCondition(k, b.s);
      }
    }
  }

  lemma {:induction false} StuckInBlock(k: FloatReader, s: PState)
    requires StuckStmt(k, s.scope, s.funcs, s.rest) && At(s, T.BL) && s.rest != [] && !s.isError
    ensures var r := ParseStatement(k, s); r.st.None? && !r.s.isError
    decreases |s.rest|, 10
  {
    hide ParseStatement, ParseStatements, StuckBlock;
    Dispatch(k, s);
    StuckSeq(k, Next(s), []);
  }

  lemma {:induction false} StuckSeq(k: FloatReader, s: PState, acc: seq<Stmt>)
    requires StuckBlock(k, s.scope, s.funcs, s.rest) && !s.isError
    ensures var b := ParseStatements(k, s, acc); b.sts.None? && !b.s.isError
    decreases |s.rest|, 12
  {
    hide ParseStatement, ParseStatements, StuckStmt, StmtThen, NeatStmt, StartsStmt;
    StuckEndsBlock(k, s, acc);
    if s.rest != [] {
      if StuckStmt(k, s.scope, s.funcs, s.rest) {
        StuckNotAtEnd(k, s);
        StuckStatement(k, s);
      } else {
        var c, rest :| StuckLater(k, s.scope, s.funcs, s.rest, c, rest);
        ReadStmt(k, s, c, rest);
        ShorterStmt(k, s, c, rest);
        StatementsGoOn(k, s, acc);
        var r := ParseStatement(k, s);
        StuckSeq(k, r.s, acc + [r.st.value]);
      }
    }
  }

  lemma StuckEndsBlock(k: FloatReader, s: PState, acc: seq<Stmt>)
    ensures s.rest == [] ==> ParseStatements(k, s, acc) == BlockP(None, Diagnose(s))
    ensures var r := ParseStatement(k, s);
      !At(s, T.BR) && !At(s, T.EOF_TOKEN) && r.st.None? ==> ParseStatements(k, s, acc) == BlockP(None, r.s)
  {
    hide ParseStatement;
  }

  lemma StuckDefinition(k: FloatReader, s: PState)
    requires At(s, T.FUNC) && s.rest != [] && T.AllLexed(s.rest) && StuckFunction(k, s.funcs, s.rest[1..]) && !s.isError
    ensures var f := ParseFunction(k, s); f.d.None? && !f.s.isError
  {
    hide ParseFunction, ParseSignature, T.AllLexed, SignatureThen, StuckAfter;
    LexedNext(s);
    var s1 := Next(s.(scope := map[]));
    LexedNext(s1);
    var a := ParseSignature(Next(s1));
    HeadIsQuiet(k, s);
    if At(s1, T.SYMBOL) && At(a.s, T.COLON) {
      SignatureIsThere(Next(s1), a);
      var parens, ps, comma, z, rest :| StuckAfter(k, s.funcs, s.rest[1..], parens, ps, comma, z, rest);
      StuckTail(k, s, parens, ps, comma, z, rest);
    }
  }

  lemma HeadIsQuiet(k: FloatReader, s: PState)
    requires !s.isError
    ensures var s1 := Next(s.(scope := map[]));
      var a := ParseSignature(Next(s1));
      !At(s1, T.SYMBOL) || !At(a.s, T.COLON) || !At(Next(a.s), T.TYPE) ==>
        ParseFunction(k, s).d.None? && !ParseFunction(k, s).s.isError
  {
    hide ParseStatement, ParseParams;
    ParamsAreQuiet(Next(Next(Next(s.(scope := map[])))), []);
  }

  lemma {:induction false} ParamsAreQuiet(s: PState, ps: seq<Param>)
    ensures ParseParams(s, ps).s.isError == s.isError
    decreases |s.rest|
  {
    if At(s, T.TYPE) && At(Next(s), T.SYMBOL) && At(Next(Next(s)), T.COMMA) {
      var s1 := Next(s);
      ParamsAreQuiet(Next(Next(s1)), ps + [Param(Current(s1).lexeme, FromString(Current(s).lexeme))]);
    }
  }

  lemma SignatureIsThere(s: PState, a: ParamsP)
    requires a == ParseSignature(s) && s.scope == map[] && At(a.s, T.COLON) && T.AllLexed(s.rest)
    ensures exists parens, ps, comma, z, rest :: SignatureThen(s.rest, parens, ps, comma, z, rest)
  {
    hide ParseSignature, T.AllLexed, YieldParens, ParamScope, DenoteParams;
    var parens, ps, comma, z := SoundSignature(s, a);
    HeadToken(a.s);
    assert SignatureThen(s.rest, parens, ps, comma, z, Next(a.s).rest);
  }

  lemma StuckTail(k: FloatReader, s: PState, parens: bool, ps: seq<CParam>, comma: bool, z: Ending, rest: seq<T.Tok>)
    requires !s.isError && |s.rest| > 1 && s.rest[1].ty == T.SYMBOL
    requires StuckAfter(k, s.funcs, s.rest[1..], parens, ps, comma, z, rest)
    ensures var f := ParseFunction(k, s); f.d.None? && !f.s.isError
  {
    hide ParseFunction, ParseSignature, ParseStatement, StuckStmt, YieldParens, FromString, ParamScope, DenoteParams, Insert;
    var s1 := Next(s.(scope := map[]));
    HeadIsQuiet(k, s);
    var colon := [T.Tok(T.COLON, ":")] + rest;
    SignatureGives(Next(s1), parens, ps, comma, z, colon);
    var a := ParseSignature(Next(s1));
    var s2 := Next(a.s);
    assert s2.rest == rest;
    if At(s2, T.TYPE) {
      var t := FromString(Current(s2).lexeme);
      var s3 := if t == UNDEFINED then Diagnose(Next(s2)) else Next(s2);
      StuckStatement(k, s3.(funcs := Insert(s3.funcs, Current(s1).lexeme, t)));
      BodyIsQuiet(k, s);
    }
  }

  lemma SignatureGives(s: PState, parens: bool, ps: seq<CParam>, comma: bool, z: Ending, rest: seq<T.Tok>)
    requires s.scope == map[] && Colon(rest) && s.rest == YieldParens(parens, ps, comma, z) + rest
    requires (ps != [] || !z.Shut? ==> parens) && (z.Nameless? && ps != [] ==> comma) && (comma ==> ps != [])
    ensures var r := ParseSignature(s).s;
      r.rest == rest && r.scope == ParamScope(DenoteParams(ps)) && r.funcs == s.funcs && r.isError == s.isError
  {
    hide YieldParens, ParseSignature, ParamScope, DenoteParams;
    CompleteSignature(s, CFunction("", parens, ps, comma, z, "int", CBlock([])), rest);
  }

  /** A function whose body is not parsed. */
  lemma BodyIsQuiet(k: FloatReader, s: PState)
    ensures var s1 := Next(s.(scope := map[]));
      var s2 := Next(ParseSignature(Next(s1)).s);
      var t := FromString(Current(s2).lexeme);
      var s3 := if t == UNDEFINED then Diagnose(Next(s2)) else Next(s2);
      var b := ParseStatement(k, s3.(funcs := Insert(s3.funcs, Current(s1).lexeme, t)));
      At(s1, T.SYMBOL) && At(ParseSignature(Next(s1)).s, T.COLON) && At(s2, T.TYPE) && b.st.None? ==>
        ParseFunction(k, s) == FunctionP(None, b.s)
  {
    hide ParseStatement, ParseSignature, FromString, Insert;
  }

  lemma {:induction false} StuckInFile(k: FloatReader, s: PState, acc: Program)
    requires StuckFile(k, s.funcs, s.rest) && !s.isError && T.AllLexed(s.rest)
    ensures var r := ParseFile(k, s, acc); r.root.Dummy? && !r.s.isError
    decreases |s.rest|
  {
    hide ParseFunction, ParseFile, T.AllLexed, StuckFunction, FunctionThen, FromString, Insert, NeatFunction;
    FileGivesUp(k, s, acc);
    if At(s, T.FUNC) {
      if StuckFunction(k, s.funcs, s.rest[1..]) {
        StuckDefinition(k, s);
      } else {
        var c, rest :| StuckNext(k, s.funcs, s.rest, c, rest);
        ReadFunction(k, s, c, rest);
        StuckInFile(k, ParseFunction(k, s).s, acc + [ParseFunction(k, s).d.value]);
      }
    }
  }

  lemma FileGivesUp(k: FloatReader, s: PState, acc: Program)
    ensures At(s, T.ERROR_TOKEN) ==> ParseFile(k, s, acc) == RootP(Dummy, s)
    ensures At(s, T.FUNC) ==>
      var f := ParseFunction(k, s);
      ParseFile(k, s, acc) == if f.d.None? then RootP(Dummy, f.s) else ParseFile(k, f.s, acc + [f.d.value])
  {
    hide ParseFunction;
  }

  lemma ReadFunction(k: FloatReader, s: PState, c: CFunction, rest: seq<T.Tok>)
    requires FunctionThen(k, s.funcs, s.rest, c, rest) && T.AllLexed(s.rest)
    ensures var f := ParseFunction(k, s);
      && f.d.Some? && f.s.rest == rest && f.s.funcs == Insert(s.funcs, c.name, FromString(c.ty)) && f.s.isError == s.isError
    ensures T.AllLexed(rest) && |rest| < |s.rest|
  {
    hide ParseFunction, WellFormedFunction, DenoteFunction, YieldFunction, FromString, Insert, NeatFunction, MayFollow, T.Lexed;
    CompleteFunction(k, s, c, DenoteFunction(k, s.funcs, c).value, rest);
    assert forall i :: 0 <= i < |rest| ==> rest[i] == s.rest[|YieldFunction(c)| + i];
  }

  ghost predicate Denotes(k: FloatReader, tokens: seq<T.Tok>) {
    exists cs :: WellFormedFile(cs) && YieldFile(cs) == tokens && DenoteFile(k, map[], cs).Some?
  }

  /** The parser gives up without an error exactly where it gets stuck as described here: where one of
      its messages is no error, or where it prints none. */
  lemma SilentExactlyWhenStuck(k: FloatReader, tokens: seq<T.Tok>)
    requires T.AllLexed(tokens)
    ensures var r := Parse(k, tokens); r.root.Dummy? && !r.s.isError <==> StuckFile(k, map[], tokens)
  {
    hide ParseFile, StuckFile, T.AllLexed;
    var r := Parse(k, tokens);
    if StuckFile(k, map[], tokens) {
      StuckInFile(k, StartState(tokens), []);
    }
    if r.root.Dummy? && !r.s.isError {
      QuietFile(k, StartState(tokens), []);
    }
  }

  /** So the error flag is set if and only if the tokens are no program that has a meaning, and do not
      get stuck. */
  lemma ErrorExactlyWhen(k: FloatReader, tokens: seq<T.Tok>)
    requires T.AllLexed(tokens)
    ensures Parse(k, tokens).s.isError <==> !Denotes(k, tokens) && !StuckFile(k, map[], tokens)
  {
    hide ParseFile, StuckFile, T.AllLexed, WellFormedFile;
    SilentExactlyWhenStuck(k, tokens);
    var r := Parse(k, tokens);
    if Denotes(k, tokens) {
      var cs :| WellFormedFile(cs) && YieldFile(cs) == tokens && DenoteFile(k, map[], cs).Some?;
      ParserAcceptsGrammar(k, cs, DenoteFile(k, map[], cs).value);
    } else if !r.s.isError && r.root.Vector? {
      var cs := SoundFile(k, StartState(tokens), [], r);
    }
  }
}
