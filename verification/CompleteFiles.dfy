/** Completeness of the parser for functions and files. */
module CompleteFiles {
  import opened Wrappers
  import opened Ast
  import opened Parsing
  import opened Grammar
  import opened Completeness
  import opened CompleteStatements
  import T = Tokens

  /** One parameter, up to what follows it. */
  lemma ParamStep(s: PState, p: CParam, acc: seq<Param>, after: seq<T.Tok>)
    requires s.rest == [T.Tok(T.TYPE, p.ty), T.Tok(T.SYMBOL, p.name)] + after && after != []
    ensures var acc1 := acc + [Param(p.name, FromString(p.ty))];
      && (after[0].ty == T.COMMA ==> ParseParams(s, acc) == ParseParams(s.(rest := after[1..]), acc1))
      && (after[0].ty == T.PR ==> ParseParams(s, acc) == ParamsP(acc1, s.(rest := after[1..])))
      && (after[0].ty == T.COLON ==> ParseParams(s, acc) == ParamsP(acc1, Diagnose(s).(rest := after)))
  {
    assert Next(s).rest == [T.Tok(T.SYMBOL, p.name)] + after;
    assert Next(Next(s)).rest == after;
  }

  /** A colon comes after the parameters. */
  predicate Colon(rest: seq<T.Tok>) { rest != [] && rest[0].ty == T.COLON }

  lemma {:induction false} CompleteParams(s: PState, ps: seq<CParam>, comma: bool, z: Ending, acc: seq<Param>, rest: seq<T.Tok>)
    requires s.rest == YieldParams(ps, comma) + (YieldEnding(z) + rest) && Colon(rest)
    requires z.Nameless? && ps != [] ==> comma
    ensures ParseParams(s, acc) == ParamsP(acc + DenoteParams(ps), After(s, z.Shut?, rest))
    decreases ps
  {
    hide ParseParams, Next, YieldEnding, YieldParams, DenoteParams, FromString;
    var close := YieldEnding(z) + rest;
    if ps == [] {
      NoMoreParams(s, comma, z, acc, rest);
    } else {
      var p := Param(ps[0].name, FromString(ps[0].ty));
      var tail := YieldParams(ps[1..], comma) + close;
      ParamsParts(ps, comma, close, acc);
      if |ps| > 1 || comma {
        ParamStep(s, ps[0], acc, [COMMA_TOK] + tail);
        CompleteParams(s.(rest := tail), ps[1..], comma, z, acc + [p], rest);
      } else {
        ParamStep(s, ps[0], acc, close);
        EndingHead(z, rest);
      }
    }
  }

  lemma ParamsParts(ps: seq<CParam>, comma: bool, close: seq<T.Tok>, acc: seq<Param>)
    requires ps != []
    ensures var head, tail := [T.Tok(T.TYPE, ps[0].ty), T.Tok(T.SYMBOL, ps[0].name)], YieldParams(ps[1..], comma) + close;
      YieldParams(ps, comma) + close == head + if |ps| > 1 || comma then [COMMA_TOK] + tail else close
    ensures var p := Param(ps[0].name, FromString(ps[0].ty));
      && acc + DenoteParams(ps) == acc + [p] + DenoteParams(ps[1..])
      && (|ps| == 1 ==> acc + DenoteParams(ps) == acc + [p])
  {
    hide FromString;
    if |ps| == 1 {
      assert ps[1..] == [];
    }
  }

  lemma EndingHead(z: Ending, rest: seq<T.Tok>)
    requires Colon(rest)
    ensures var after := YieldEnding(z) + rest;
      && after != [] && (z.Shut? ==> after[0].ty == T.PR && after[1..] == rest)
      && (z.Missing? ==> after[0].ty == T.COLON && after == rest)
      && (z.Nameless? ==> after[0].ty == T.TYPE && after[1..] == rest)
  {
    assert [] + rest == rest;
  }

  lemma NoMoreParams(s: PState, comma: bool, z: Ending, acc: seq<Param>, rest: seq<T.Tok>)
    requires s.rest == YieldParams([], comma) + (YieldEnding(z) + rest) && Colon(rest)
    ensures ParseParams(s, acc) == ParamsP(acc + DenoteParams([]), After(s, z.Shut?, rest))
  {
    hide ParseParams, YieldEnding;
    assert s.rest == YieldEnding(z) + rest;
    EndingHead(z, rest);
    ParamsStop(s, acc);
    assert acc + [] == acc;
  }

  /** Where no parameter starts, or one without a name. */
  lemma ParamsStop(s: PState, acc: seq<Param>)
    ensures At(s, T.PR) ==> ParseParams(s, acc) == ParamsP(acc, Next(s))
    ensures !At(s, T.PR) && !At(s, T.TYPE) ==> ParseParams(s, acc) == ParamsP(acc, Diagnose(s))
    ensures At(s, T.TYPE) && !At(Next(s), T.SYMBOL) ==> ParseParams(s, acc) == ParamsP(acc, Diagnose(Next(s)))
  {
  }

  lemma CompleteSignature(s: PState, c: CFunction, rest: seq<T.Tok>)
    requires WellFormedFunction(c) && s.scope == map[] && Colon(rest)
    requires s.rest == YieldSignature(c) + rest
    ensures ParseSignature(s) ==
      ParamsP(DenoteParams(c.params), After(s, c.ending.Shut?, rest).(scope := ParamScope(DenoteParams(c.params))))
  {
    hide WellFormed, ParseParams;
    if c.parens {
      assert Next(s).rest == YieldParams(c.params, c.comma) + (YieldEnding(c.ending) + rest);
      CompleteParams(Next(s), c.params, c.comma, c.ending, [], rest);
      assert [] + DenoteParams(c.params) == DenoteParams(c.params);
    } else {
      assert s.rest == rest;
    }
  }

  /** The parser has read a function and nothing more; it has printed a message if something was not
      closed. */
  ghost predicate FunctionDone(s: PState, r: FunctionP, d: FunctionDef, c: CFunction, rest: seq<T.Tok>) {
    && r.d == Some(d) && r.s.rest == rest && r.s.funcs == Insert(s.funcs, c.name, FromString(c.ty))
    && r.s.isError == s.isError && r.s.diagnosed == (s.diagnosed || !NeatFunction(c))
  }

  lemma CompleteFunction(k: FloatReader, s: PState, c: CFunction, d: FunctionDef, rest: seq<T.Tok>)
    requires WellFormedFunction(c) && s.rest == YieldFunction(c) + rest && MayFollow(c.body, rest)
    requires DenoteFunction(k, s.funcs, c) == Some(d)
    ensures FunctionDone(s, ParseFunction(k, s), d, c, rest)
  {
    hide WellFormed, YieldStmt, DenoteStmt, MayFollow, YieldSignature, ParseSignature, ParseStatement, ParamScope;
    var t := FromString(c.ty);
    var body := YieldStmt(c.body) + rest;
    var colon := [T.Tok(T.COLON, ":"), T.Tok(T.TYPE, c.ty)] + body;
    var s0 := s.(scope := map[]);
    assert s.rest == [T.Tok(T.FUNC, "func"), T.Tok(T.SYMBOL, c.name)] + (YieldSignature(c) + colon);
    assert Next(s0).rest == [T.Tok(T.SYMBOL, c.name)] + (YieldSignature(c) + colon);
    var s1 := Next(Next(s0));
    assert s1.rest == YieldSignature(c) + colon;
    CompleteSignature(s1, c, colon);
    var a := ParseSignature(s1);
    assert Next(a.s).rest == [T.Tok(T.TYPE, c.ty)] + body;
    var s2 := Next(Next(a.s));
    assert s2.rest == body;
    var s3 := s2.(funcs := Insert(s2.funcs, c.name, t));
    BodyParsable(k, s3, c, rest);
    var b := DenoteStmt(k, s3.scope, s3.funcs, c.body).value;
    CompleteStmt(k, s3, c.body, b, rest);
  }

  lemma BodyParsable(k: FloatReader, s: PState, c: CFunction, rest: seq<T.Tok>)
    requires WellFormedFunction(c) && s.rest == YieldStmt(c.body) + rest && MayFollow(c.body, rest)
    requires DenoteStmt(k, s.scope, s.funcs, c.body).Some?
    ensures Parsable(k, s, c.body, DenoteStmt(k, s.scope, s.funcs, c.body).value, rest)
  {
  }

  lemma FileFollows(c: CStmt, cs: seq<CFunction>)
    requires StmtEndsOpen(c) ==> cs == []
    ensures MayFollow(c, YieldFile(cs))
  {
    hide OpenIf, MayFollow;
    FollowsMay(c, YieldFile(cs));
  }

  lemma {:induction false} CompleteFile(k: FloatReader, s: PState, cs: seq<CFunction>, p: Program, acc: Program)
    requires WellFormedFile(cs) && s.rest == YieldFile(cs) && DenoteFile(k, s.funcs, cs) == Some(p)
    ensures var r := ParseFile(k, s, acc);
      r.root == Vector(acc + p) && r.s.isError == s.isError && r.s.diagnosed == (s.diagnosed || !NeatFile(cs))
    decreases cs
  {
    hide WellFormedFunction, YieldFunction, DenoteFunction, ParseFunction, MayFollow, NeatFunction, StmtEndsOpen;
    if cs == [] {
      assert acc + p == acc;
    } else {
      var rest := YieldFile(cs[1..]);
      var d := DenoteFunction(k, s.funcs, cs[0]).value;
      FileFollows(cs[0].body, cs[1..]);
      FunctionStarts(cs[0]);
      CompleteFunction(k, s, cs[0], d, rest);
      var s1 := ParseFunction(k, s).s;
      CompleteFile(k, s1, cs[1..], p[1..], acc + [d]);
      assert acc + p == acc + [d] + p[1..];
      NeatFileCons(cs);
    }
  }

  lemma NeatFileCons(cs: seq<CFunction>)
    requires cs != []
    ensures NeatFile(cs) <==> NeatFunction(cs[0]) && NeatFile(cs[1..])
  {
    hide NeatFunction;
    assert forall i :: 0 < i < |cs| ==> cs[i] == cs[1..][i - 1];
  }

  lemma FunctionStarts(c: CFunction)
    ensures YieldFunction(c) != [] && YieldFunction(c)[0].ty == T.FUNC
  {
  }

  /** A file derived from the grammar whose names are known and whose operands fit is parsed, without
      an error, into the program it denotes, and with no message if everything is closed. */
  lemma ParserAcceptsGrammar(k: FloatReader, cs: seq<CFunction>, p: Program)
    requires WellFormedFile(cs) && DenoteFile(k, map[], cs) == Some(p)
    ensures var r := Parse(k, YieldFile(cs));
      r.root == Vector(p) && !r.s.isError && (r.s.diagnosed <==> !NeatFile(cs))
  {
    CompleteFile(k, StartState(YieldFile(cs)), cs, p, []);
    assert [] + p == p;
  }
}
