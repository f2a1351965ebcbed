/** Soundness of the parser for functions and files, and the exact theorem. */
module SoundFiles {
  import opened Wrappers
  import opened Ast
  import opened Parsing
  import opened Grammar
  import opened Completeness
  import opened CompleteStatements
  import opened CompleteFiles
  import opened ParserSoundness
  import opened SoundStatements
  import T = Tokens

  /** The current token of a function's head, spelled out. */
  lemma HeadToken(s: PState)
    requires T.AllLexed(s.rest)
    ensures T.AllLexed(Next(s).rest)
    ensures At(s, T.FUNC) ==> s.rest == [T.Tok(T.FUNC, "func")] + Next(s).rest
    ensures At(s, T.COLON) ==> s.rest == [T.Tok(T.COLON, ":")] + Next(s).rest
    ensures At(s, T.COMMA) ==> s.rest == [COMMA_TOK] + Next(s).rest
    ensures At(s, T.PL) ==> s.rest == [OPEN] + Next(s).rest
    ensures At(s, T.PR) ==> s.rest == [CLOSE] + Next(s).rest
    ensures At(s, T.SYMBOL) ==> s.rest == [T.Tok(T.SYMBOL, Current(s).lexeme)] + Next(s).rest
    ensures At(s, T.TYPE) ==> s.rest == [T.Tok(T.TYPE, Current(s).lexeme)] + Next(s).rest
    ensures At(s, T.TYPE) ==> FromString(Current(s).lexeme) != UNDEFINED
  {
    hide T.AllLexed, T.Proper, Fixed, FromString;
    FixedKinds();
    LexedNext(s);
    if At(s, T.TYPE) {
      TypeToken(s);
    } else if Fixed(Current(s).ty) {
      Spelled(s, Current(s).ty);
    }
  }

  lemma TypeToken(s: PState)
    requires T.AllLexed(s.rest) && At(s, T.TYPE)
    ensures FromString(Current(s).lexeme) != UNDEFINED
  {
    ProperNext(s);
  }

  /** The parameters between `s` and the colon. */
  ghost predicate AccountsParams(s: PState, ps: seq<CParam>, comma: bool, z: Ending, acc: seq<Param>, a: ParamsP) {
    && s.rest == YieldParams(ps, comma) + (YieldEnding(z) + a.s.rest) && (comma ==> ps != [])
    && (z.Nameless? && ps != [] ==> comma)
    && a.ps == acc + DenoteParams(ps) && a.s == After(s, z.Shut?, a.s.rest) && T.AllLexed(a.s.rest)
  }

  lemma {:induction false} SoundParams(s: PState, acc: seq<Param>, a: ParamsP) returns (ps: seq<CParam>, comma: bool, z: Ending)
    requires a == ParseParams(s, acc) && T.AllLexed(s.rest) && At(a.s, T.COLON)
    ensures AccountsParams(s, ps, comma, z, acc, a)
    decreases |s.rest|, 1
  {
    hide ParseParams, T.AllLexed, AccountsParams, FromString;
    if !At(s, T.TYPE) || !At(Next(s), T.SYMBOL) {
      HeadToken(s);
      ps, comma, z := [], false, if At(s, T.PR) then Shut else if At(s, T.TYPE) then Nameless(Current(s).lexeme) else Missing;
      NoParamsAccounts(s, acc, a, z);
    } else {
      ps, comma, z := SoundNamed(s, acc, a);
    }
  }

  lemma {:induction false} SoundNamed(s: PState, acc: seq<Param>, a: ParamsP) returns (ps: seq<CParam>, comma: bool, z: Ending)
    requires a == ParseParams(s, acc) && T.AllLexed(s.rest) && At(a.s, T.COLON) && At(s, T.TYPE) && At(Next(s), T.SYMBOL)
    ensures AccountsParams(s, ps, comma, z, acc, a)
    decreases |s.rest|, 0
  {
    hide ParseParams, T.AllLexed, AccountsParams, FromString, Current, Next, At;
    var s2 := Next(Next(s));
    ParamTokens(s);
    var p := CParam(Current(s).lexeme, Current(Next(s)).lexeme);
    if At(s2, T.COMMA) {
      ParamMore(s, acc);
      var ps1, comma1;
      ps1, comma1, z := SoundParams(Next(s2), acc + [Param(p.name, FromString(p.ty))], a);
      ps, comma := [p] + ps1, ps1 == [] || comma1;
      ParamsCons(s, p, Next(s2), ps1, comma1, z, acc, a);
    } else {
      ParamLast(s, acc);
      ps, comma, z := [p], false, if At(s2, T.PR) then Shut else Missing;
      assert [] + s2.rest == s2.rest;
      ParamsOne(s, p, z, acc, a);
    }
  }

  /** A type, a name and what comes after them. */
  lemma ParamTokens(s: PState)
    requires At(s, T.TYPE) && At(Next(s), T.SYMBOL) && T.AllLexed(s.rest)
    ensures var s2 := Next(Next(s));
      && s.rest == [T.Tok(T.TYPE, Current(s).lexeme)] + ([T.Tok(T.SYMBOL, Current(Next(s)).lexeme)] + s2.rest)
      && s2 == s.(rest := s2.rest) && T.AllLexed(s2.rest) && T.AllLexed(Next(s2).rest)
      && Next(s2) == s.(rest := Next(s2).rest)
      && (At(s2, T.COMMA) ==> s2.rest == [COMMA_TOK] + Next(s2).rest && |Next(s2).rest| < |s.rest|)
      && (At(s2, T.PR) ==> s2.rest == [CLOSE] + Next(s2).rest)
  {
    hide T.AllLexed, FromString;
    HeadToken(s);
    HeadToken(Next(s));
    HeadToken(Next(Next(s)));
  }

  lemma NoParamsAccounts(s: PState, acc: seq<Param>, a: ParamsP, z: Ending)
    requires a == ParseParams(s, acc) && T.AllLexed(s.rest) && T.AllLexed(Next(s).rest)
    requires if At(s, T.PR) then z.Shut? && s.rest == [CLOSE] + Next(s).rest
             else if At(s, T.TYPE) then
               && !At(Next(s), T.SYMBOL) && z == Nameless(Current(s).lexeme)
               && s.rest == [T.Tok(T.TYPE, Current(s).lexeme)] + Next(s).rest
             else z.Missing?
    ensures AccountsParams(s, [], false, z, acc, a)
  {
    hide ParseParams, T.AllLexed;
    ParamsStop(s, acc);
    assert [] + s.rest == s.rest;
    assert s.rest == YieldEnding(z) + a.s.rest;
    assert s.rest == YieldParams([], false) + (YieldEnding(z) + a.s.rest);
    assert acc + DenoteParams([]) == acc;
  }

  lemma ParamMore(s: PState, acc: seq<Param>)
    requires At(s, T.TYPE) && At(Next(s), T.SYMBOL) && At(Next(Next(s)), T.COMMA)
    ensures var s1 := Next(s);
      ParseParams(s, acc) ==
        ParseParams(Next(Next(s1)), acc + [Param(Current(s1).lexeme, FromString(Current(s).lexeme))])
  {
  }

  lemma ParamLast(s: PState, acc: seq<Param>)
    requires At(s, T.TYPE) && At(Next(s), T.SYMBOL) && !At(Next(Next(s)), T.COMMA)
    ensures var s2 := Next(Next(s));
      ParseParams(s, acc) ==
        ParamsP(acc + [Param(Current(Next(s)).lexeme, FromString(Current(s).lexeme))],
                if At(s2, T.PR) then Next(s2) else Diagnose(s2))
  {
  }

  lemma ParamsCons(s: PState, p: CParam, s1: PState, ps: seq<CParam>, comma: bool, z: Ending, acc: seq<Param>, a: ParamsP)
    requires s.rest == [T.Tok(T.TYPE, p.ty)] + ([T.Tok(T.SYMBOL, p.name)] + ([COMMA_TOK] + s1.rest))
    requires s1 == s.(rest := s1.rest)
    requires AccountsParams(s1, ps, comma, z, acc + [Param(p.name, FromString(p.ty))], a)
    ensures AccountsParams(s, [p] + ps, ps == [] || comma, z, acc, a)
  {
    hide T.AllLexed, YieldEnding, YieldParams, FromString;
    assert ([p] + ps)[1..] == ps;
    ParamsYield(p, ps, comma);
    ParamsLayout([T.Tok(T.TYPE, p.ty)], [T.Tok(T.SYMBOL, p.name)], YieldParams(ps, comma), YieldEnding(z) + a.s.rest);
    var x := Param(p.name, FromString(p.ty));
    assert acc + [x] + DenoteParams(ps) == acc + ([x] + DenoteParams(ps));
  }

  lemma ParamsLayout(a: seq<T.Tok>, b: seq<T.Tok>, c: seq<T.Tok>, rest: seq<T.Tok>)
    ensures a + (b + ([COMMA_TOK] + (c + rest))) == a + (b + ([COMMA_TOK] + c)) + rest
  {
  }

  lemma ParamsYield(p: CParam, ps: seq<CParam>, comma: bool)
    requires comma ==> ps != []
    ensures YieldParams([p] + ps, ps == [] || comma) ==
      [T.Tok(T.TYPE, p.ty)] + ([T.Tok(T.SYMBOL, p.name)] + ([COMMA_TOK] + YieldParams(ps, comma)))
  {
    assert ([p] + ps)[1..] == ps;
    assert YieldParams(ps, ps == [] || comma) == YieldParams(ps, comma);
  }

  lemma ParamsOne(s: PState, p: CParam, z: Ending, acc: seq<Param>, a: ParamsP)
    requires s.rest == [T.Tok(T.TYPE, p.ty)] + ([T.Tok(T.SYMBOL, p.name)] + (YieldEnding(z) + a.s.rest)) && !z.Nameless?
    requires a.ps == acc + [Param(p.name, FromString(p.ty))] && a.s == After(s, z.Shut?, a.s.rest) && T.AllLexed(a.s.rest)
    ensures AccountsParams(s, [p], false, z, acc, a)
  {
    hide T.AllLexed;
    assert [p][1..] == [];
    assert YieldParams([p][1..], false) == [];
    assert DenoteParams([p][1..]) == [];
    assert DenoteParams([p]) == [Param(p.name, FromString(p.ty))];
  }

  /** The signature: what is between the name and the colon. */
  lemma SoundSignature(s: PState, a: ParamsP) returns (parens: bool, ps: seq<CParam>, comma: bool, z: Ending)
    requires a == ParseSignature(s) && T.AllLexed(s.rest) && At(a.s, T.COLON) && s.scope == map[]
    ensures a.ps == DenoteParams(ps) && (comma ==> ps != []) && (ps != [] || !z.Shut? ==> parens) && T.AllLexed(a.s.rest)
    ensures z.Nameless? && ps != [] ==> comma
    ensures a.s == After(s, z.Shut?, a.s.rest).(scope := ParamScope(DenoteParams(ps)))
    ensures s.rest == YieldParens(parens, ps, comma, z) + a.s.rest
  {
    hide ParseParams, YieldParams, DenoteParams, T.AllLexed, YieldEnding;
    parens, ps, comma, z := At(s, T.PL), [], false, Shut;
    if parens {
      HeadToken(s);
      ps, comma, z := SoundParams(Next(s), [], ParseParams(Next(s), []));
      assert [] + DenoteParams(ps) == DenoteParams(ps);
      Rejoin([OPEN], YieldParams(ps, comma), YieldEnding(z), a.s.rest);
    } else {
      NoParams();
    }
  }

  lemma NoParams()
    ensures DenoteParams([]) == [] && ParamScope([]) == map[]
  {
  }

  /** The tokens between `s` and the result are the tokens of `c`, which denotes the function. */
  ghost predicate AccountsFunction(k: FloatReader, s: PState, c: CFunction, f: FunctionP) {
    && WellFormedFunction(c) && s.rest == YieldFunction(c) + f.s.rest
    && DenoteFunction(k, s.funcs, c) == f.d && f.s.funcs == Insert(s.funcs, c.name, FromString(c.ty))
    && T.AllLexed(f.s.rest) && MayFollow(c.body, f.s.rest) && (StmtEndsOpen(c.body) ==> f.s.rest == [])
    && f.s.isError == s.isError && f.s.diagnosed == (s.diagnosed || !NeatFunction(c))
  }

  /** `func` and the name. */
  lemma SoundHead(s: PState)
    requires At(s, T.FUNC) && At(Next(s.(scope := map[])), T.SYMBOL) && T.AllLexed(s.rest)
    ensures var s1 := Next(s.(scope := map[]));
      && s.rest == [T.Tok(T.FUNC, "func")] + ([T.Tok(T.SYMBOL, Current(s1).lexeme)] + Next(s1).rest)
      && T.AllLexed(Next(s1).rest) && Next(s1) == s.(rest := Next(s1).rest, scope := map[])
  {
    hide T.AllLexed;
    HeadToken(s);
    HeadToken(Next(s));
  }

  /** The colon and the type. */
  lemma SoundTail(s: PState)
    requires At(s, T.COLON) && At(Next(s), T.TYPE) && T.AllLexed(s.rest)
    ensures var s1 := Next(s);
      && s.rest == [T.Tok(T.COLON, ":")] + ([T.Tok(T.TYPE, Current(s1).lexeme)] + Next(s1).rest)
      && T.AllLexed(Next(s1).rest) && FromString(Current(s1).lexeme) != UNDEFINED
      && Next(s1) == s.(rest := Next(s1).rest)
  {
    hide T.AllLexed;
    HeadToken(s);
    HeadToken(Next(s));
  }

  lemma SoundFunction(k: FloatReader, s: PState, f: FunctionP) returns (c: CFunction)
    requires At(s, T.FUNC) && f == ParseFunction(k, s) && f.d.Some? && !f.s.isError && T.AllLexed(s.rest)
    ensures AccountsFunction(k, s, c, f)
  {
    hide ParseFunction, ParseSignature, ParseStatement, DenoteStmt, YieldStmt, WellFormed, YieldParens, FromString;
    hide T.AllLexed, AccountsFunction, AccountsStmt, ParamScope, DenoteParams, Next, Current, Insert, NeatStmt, StmtEndsOpen, MayFollow;
    FunctionSteps(k, s);
    SoundHead(s);
    var s1 := Next(s.(scope := map[]));
    var a := ParseSignature(Next(s1));
    var parens, ps, comma, z := SoundSignature(Next(s1), a);
    SoundTail(a.s);
    var s2 := Next(a.s);
    var t := FromString(Current(s2).lexeme);
    var s3 := Next(s2).(funcs := Insert(s2.funcs, Current(s1).lexeme, t));
    NextState(a.s);
    var b := ParseStatement(k, s3);
    var body := SoundStmt(k, s3, b);
    c := CFunction(Current(s1).lexeme, parens, ps, comma, z, Current(s2).lexeme, body);
    BodyAccounts(k, s3, body, b);
    FunctionAccounts(k, s, c, f);
  }

  lemma BodyAccounts(k: FloatReader, s: PState, c: CStmt, b: StmtP)
    requires AccountsStmt(k, s, c, b)
    ensures WellFormed(c) && s.rest == YieldStmt(c) + b.s.rest && b.s.funcs == s.funcs && T.AllLexed(b.s.rest)
    ensures DenoteStmt(k, s.scope, s.funcs, c).Some? && b.st == Some(DenoteStmt(k, s.scope, s.funcs, c).value.st)
    ensures b.s.isError == s.isError && b.s.diagnosed == (s.diagnosed || !NeatStmt(c)) && MayFollow(c, b.s.rest) && (StmtEndsOpen(c) ==> b.s.rest == [])
  {
  }

  /** What a function without an error consists of. */
  lemma FunctionSteps(k: FloatReader, s: PState)
    requires ParseFunction(k, s).d.Some? && !ParseFunction(k, s).s.isError
    ensures var s1 := Next(s.(scope := map[]));
      var a := ParseSignature(Next(s1));
      var s2 := Next(a.s);
      var t := FromString(Current(s2).lexeme);
      && At(s1, T.SYMBOL) && At(a.s, T.COLON) && At(s2, T.TYPE)
      && (t != UNDEFINED ==>
            var b := ParseStatement(k, Next(s2).(funcs := Insert(s2.funcs, Current(s1).lexeme, t)));
            && b.st.Some? && !b.s.isError
            && ParseFunction(k, s) == FunctionP(Some(FunctionDef(Current(s1).lexeme, a.ps, b.st.value, t)), b.s))
  {
    hide ParseSignature, ParseStatement;
  }

  lemma FunctionAccounts(k: FloatReader, s: PState, c: CFunction, f: FunctionP)
    requires WellFormedFunction(c) && MayFollow(c.body, f.s.rest) && (StmtEndsOpen(c.body) ==> f.s.rest == [])
    requires f.s.isError == s.isError && f.s.diagnosed == (s.diagnosed || !NeatFunction(c))
    requires FromString(c.ty) != UNDEFINED && f.d.Some? && T.AllLexed(f.s.rest)
    requires f.s.funcs == Insert(s.funcs, c.name, FromString(c.ty))
    requires var b := DenoteStmt(k, ParamScope(DenoteParams(c.params)), f.s.funcs, c.body);
      b.Some? && f.d.value == FunctionDef(c.name, DenoteParams(c.params), b.value.st, FromString(c.ty))
    requires s.rest == [T.Tok(T.FUNC, "func")] + ([T.Tok(T.SYMBOL, c.name)] + (YieldSignature(c) +
      ([T.Tok(T.COLON, ":")] + ([T.Tok(T.TYPE, c.ty)] + (YieldStmt(c.body) + f.s.rest)))))
    ensures AccountsFunction(k, s, c, f)
  {
    hide WellFormed, YieldStmt, DenoteStmt, YieldSignature, T.AllLexed, ParamScope, DenoteParams, MayFollow;
  }

  lemma {:induction false} SoundFile(k: FloatReader, s: PState, acc: Program, r: RootP) returns (cs: seq<CFunction>)
    requires r == ParseFile(k, s, acc) && T.AllLexed(s.rest) && r.root.Vector? && !r.s.isError
    ensures WellFormedFile(cs) && s.rest == YieldFile(cs) && r.s.diagnosed == (s.diagnosed || !NeatFile(cs))
    ensures acc <= r.root.p && DenoteFile(k, s.funcs, cs) == Some(r.root.p[|acc|..])
    decreases |s.rest|
  {
    hide ParseFunction, DenoteFunction, YieldFunction, WellFormedFunction, NeatFunction, StmtEndsOpen, MayFollow;
    if s.rest == [] {
      cs := [];
    } else {
      var f := ParseFunction(k, s);
      FirstIsFunction(k, s, acc);
      var c := SoundFunction(k, s, f);
      var more := SoundFile(k, f.s, acc + [f.d.value], r);
      cs := [c] + more;
      assert cs[1..] == more;
      NeatFileCons(cs);
      FileCons(c, more);
      assert r.root.p[|acc|..] == [f.d.value] + r.root.p[|acc| + 1..];
    }
  }

  lemma FileCons(c: CFunction, more: seq<CFunction>)
    requires WellFormedFunction(c) && WellFormedFile(more) && (StmtEndsOpen(c.body) ==> YieldFile(more) == [])
    ensures WellFormedFile([c] + more)
  {
    hide WellFormedFunction, StmtEndsOpen;
    var cs := [c] + more;
    if more != [] {
      FunctionStarts(more[0]);
    }
    forall i | 0 <= i < |cs| ensures WellFormedFunction(cs[i]) && (i < |cs| - 1 ==> !StmtEndsOpen(cs[i].body)) {
      if i > 0 {
        assert cs[i] == more[i - 1];
      }
    }
  }

  lemma FirstIsFunction(k: FloatReader, s: PState, acc: Program)
    requires s.rest != [] && T.AllLexed(s.rest)
    requires ParseFile(k, s, acc).root.Vector? && !ParseFile(k, s, acc).s.isError
    ensures var f := ParseFunction(k, s);
      At(s, T.FUNC) && f.d.Some? && !f.s.isError && ParseFile(k, s, acc) == ParseFile(k, f.s, acc + [f.d.value])
  {
    hide ParseFunction;
    ProperNext(s);
  }

  /** For any tokens the lexer can produce: the parser returns the program `p` without an error if
      and only if the tokens are those of a derivation in the grammar that denotes `p`; it prints
      nothing if and only if in such a derivation everything is closed. */
  lemma ParserAcceptsExactlyGrammar(k: FloatReader, tokens: seq<T.Tok>, p: Program)
    requires T.AllLexed(tokens)
    ensures (Parse(k, tokens).root == Vector(p) && !Parse(k, tokens).s.isError)
       <==> (exists cs :: WellFormedFile(cs) && YieldFile(cs) == tokens && DenoteFile(k, map[], cs) == Some(p))
    ensures (Parse(k, tokens).root == Vector(p) && !Parse(k, tokens).s.diagnosed)
       <==> (exists cs :: WellFormedFile(cs) && NeatFile(cs) && YieldFile(cs) == tokens && DenoteFile(k, map[], cs) == Some(p))
  {
    var r := Parse(k, tokens);
    if r.root == Vector(p) && !r.s.isError {
      var cs := SoundFile(k, StartState(tokens), [], r);
      assert p[0..] == p;
      assert DenoteFile(k, map[], cs) == Some(p);
    }
    if cs :| WellFormedFile(cs) && YieldFile(cs) == tokens && DenoteFile(k, map[], cs) == Some(p) {
      ParserAcceptsGrammar(k, cs, p);
    }
    if cs :| WellFormedFile(cs) && NeatFile(cs) && YieldFile(cs) == tokens && DenoteFile(k, map[], cs) == Some(p) {
      ParserAcceptsGrammar(k, cs, p);
    }
  }
}
