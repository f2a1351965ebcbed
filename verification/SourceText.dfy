/** The scanner and the parser together, on texts. */
module SourceText {
  import opened Wrappers
  import opened Ast
  import opened Parsing
  import opened Grammar
  import CompleteFiles
  import opened Printing
  import opened Lexing
  import LexerLaws
  import RoundTrip
  import SoundFiles
  import T = Tokens

  function TokensOf(text: string): seq<T.Tok> {
    Toks(LexAll(text, START))
  }

  lemma {:induction false} ScannedIsLexed(text: string, s: Cursor)
    requires s.pos <= |text|
    ensures T.AllLexed(Toks(LexAll(text, s)))
    decreases |text| - s.pos
  {
    var r := Lex(text, s);
    LexerLaws.LexedIsProper(text, s);
    if r.token.tok.ty != T.EOF_TOKEN {
      hide Lex, T.Proper;
      ScannedIsLexed(text, r.next);
    }
  }

  /** For every text: the program `p` comes out of the scanner and the parser without an error if and
      only if the tokens of the text are those of a derivation in the grammar that denotes `p`, and
      without a message if and only if in such a derivation everything is closed. */
  lemma TextIsParsedExactly(k: FloatReader, text: string, p: Program)
    ensures (Parse(k, TokensOf(text)).root == Vector(p) && !Parse(k, TokensOf(text)).s.isError)
       <==> (exists cs :: WellFormedFile(cs) && YieldFile(cs) == TokensOf(text) && DenoteFile(k, map[], cs) == Some(p))
    ensures (Parse(k, TokensOf(text)).root == Vector(p) && !Parse(k, TokensOf(text)).s.diagnosed)
       <==> (exists cs :: WellFormedFile(cs) && NeatFile(cs) && YieldFile(cs) == TokensOf(text)
                          && DenoteFile(k, map[], cs) == Some(p))
  {
    hide Parse, TokensOf, WellFormedFile, NeatFile, YieldFile, DenoteFile;
    TokensAreLexed(text);
    SoundFiles.ParserAcceptsExactlyGrammar(k, TokensOf(text), p);
  }

  lemma TokensAreLexed(text: string)
    ensures T.AllLexed(TokensOf(text))
  {
    ScannedIsLexed(text, START);
  }

  // ----- writing a program out -----

  /** A space in front of every token. */
  function Spaced(ts: seq<T.Tok>): (r: seq<LexerLaws.Item>)
    ensures |r| == |ts| && forall i :: 0 <= i < |ts| ==> r[i].tok == ts[i]
  {
    if ts == [] then [] else [LexerLaws.Item([LexerLaws.Space(' ')], ts[0])] + Spaced(ts[1..])
  }

  lemma {:induction false} SpacedIsWritable(ts: seq<T.Tok>)
    requires T.AllProper(ts)
    ensures LexerLaws.Writable(Spaced(ts), [])
    ensures ts != [] ==> LexerLaws.Written(Spaced(ts), []) != [] && LexerLaws.Written(Spaced(ts), [])[0] == ' '
    decreases ts
  {
    if ts != [] {
      var items := Spaced(ts);
      assert items[1..] == Spaced(ts[1..]);
      assert items[0].before[1..] == [];
      SpacedIsWritable(ts[1..]);
      assert !LexerLaws.Sticks(ts[0], ' ');
      assert T.Proper(ts[0]);
    }
  }

  /** The text of a program. */
  ghost function SourceOf(k: FloatReader, p: Program): string {
    LexerLaws.Written(Spaced(Render(k, p)), [])
  }

  /** Writing a program out and compiling the text reads the same program back. */
  lemma ReadingUndoesWriting(k: FloatReader, p: Program)
    requires PrintableFile(k, map[], p)
    ensures var r := Parse(k, TokensOf(SourceOf(k, p)));
      r.root == Vector(p) && !r.s.diagnosed && !r.s.isError
  {
    hide Parse, PrintableFile, LexerLaws.Writable, LexerLaws.Written, LexAll;
    RoundTrip.ParsingUndoesPrinting(k, p);
    var ts := Render(k, p);
    SpacedIsWritable(ts);
    LexerLaws.ScanningUndoesWriting(Spaced(ts), []);
    assert TokensOf(SourceOf(k, p)) == ts;
  }

  // ----- a message that is no error -----

  /** `func f(int x: int return 1` */
  function Unclosed(): CFunction {
    CFunction("f", true, [CParam("int", "x")], false, Missing, "int", CReturn(CInt("1"), false))
  }

  function UnclosedFunction(): FunctionDef { FunctionDef("f", [Param("x", INTEGER)], Return(IntLit(1)), INTEGER) }

  lemma UnclosedDenotes(k: FloatReader)
    ensures DenoteFile(k, map[], [Unclosed()]) == Some([UnclosedFunction()])
  {
    assert ReadInt("1") == Some(1) by {
      assert Digits("1"[..0]) == 0;
    }
    var c := Unclosed();
    assert DenoteParams(c.params) == [Param("x", INTEGER)] by {
      assert c.params[1..] == [] && DenoteParams([]) == [];
    }
    assert DenoteFunction(k, map[], c) == Some(UnclosedFunction());
    assert [c][1..] == [] && DenoteFile(k, Insert(map[], "f", INTEGER), []) == Some([]);
    assert [UnclosedFunction()] + [] == [UnclosedFunction()];
  }

  lemma UnclosedYields()
    ensures YieldFile([Unclosed()]) ==
      [T.Tok(T.FUNC, "func"), T.Tok(T.SYMBOL, "f"), OPEN, T.Tok(T.TYPE, "int"), T.Tok(T.SYMBOL, "x"),
       T.Tok(T.COLON, ":"), T.Tok(T.TYPE, "int"), T.Tok(T.RETURN, "return"), T.Tok(T.INTEGER, "1")]
  {
    var c := Unclosed();
    assert [c][1..] == [] && c.params[1..] == [];
  }

  /** An opening parenthesis in third place would have to be closed. */
  lemma NothingNeatYields(cs: seq<CFunction>, ts: seq<T.Tok>)
    requires NeatFile(cs) && |ts| > 2 && ts[2] == OPEN && CLOSE !in ts
    ensures YieldFile(cs) != ts
  {
    hide YieldStmt, YieldParams, NeatStmt;
    if cs != [] {
      var c := cs[0];
      assert NeatFunction(c);
      var head := [T.Tok(T.FUNC, "func"), T.Tok(T.SYMBOL, c.name)];
      var colon := [T.Tok(T.COLON, ":"), T.Tok(T.TYPE, c.ty)];
      assert YieldFile(cs) == head + YieldSignature(c) + colon + YieldStmt(c.body) + YieldFile(cs[1..]);
      ThirdToken(head, c, colon, YieldStmt(c.body), YieldFile(cs[1..]));
    }
  }

  lemma ThirdToken(head: seq<T.Tok>, c: CFunction, colon: seq<T.Tok>, body: seq<T.Tok>, rest: seq<T.Tok>)
    requires |head| == 2 && |colon| == 2 && colon[0].ty == T.COLON && c.ending.Shut?
    ensures var ts := head + YieldSignature(c) + colon + body + rest;
      |ts| > 2 && (ts[2] != OPEN || CLOSE in ts)
  {
    hide YieldParams;
    var ts := head + YieldSignature(c) + colon + body + rest;
    if c.parens {
      assert ts[2 + 1 + |YieldParams(c.params, c.comma)|] == CLOSE;
    } else {
      assert ts[2] == colon[0];
    }
  }

  /** The missing parenthesis is reported, but not as an error, and the program is accepted. */
  lemma MessageWithoutError(k: FloatReader, r: RootP)
    requires r == Parse(k, YieldFile([Unclosed()]))
    ensures r.root == Vector([UnclosedFunction()]) && r.s.diagnosed && !r.s.isError
    ensures !exists cs :: NeatFile(cs) && YieldFile(cs) == YieldFile([Unclosed()])
  {
    hide Parse, YieldFile, DenoteFile, NeatFile;
    UnclosedYields();
    forall cs | NeatFile(cs) ensures YieldFile(cs) != YieldFile([Unclosed()]) {
      NothingNeatYields(cs, YieldFile([Unclosed()]));
    }
    UnclosedDenotes(k);
    CompleteFiles.ParserAcceptsGrammar(k, [Unclosed()], [UnclosedFunction()]);
  }

  /** `func 1`: the function cannot be read, which is reported, but not as an error.  The root is then
      one for which nothing is generated. */
  lemma NothingWithoutError(k: FloatReader)
    ensures var r := Parse(k, [T.Tok(T.FUNC, "func"), T.Tok(T.INTEGER, "1")]);
      r.root == Dummy && r.s.diagnosed && !r.s.isError
  {
    hide ParseStatement, ParseSignature;
    var s := StartState([T.Tok(T.FUNC, "func"), T.Tok(T.INTEGER, "1")]);
    assert Next(s.(scope := map[])).rest == [T.Tok(T.INTEGER, "1")];
    assert ParseFunction(k, s).d.None?;
  }
}
