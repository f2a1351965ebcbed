/** Scanning undoes writing: tokens written out with blanks between them are read back, each at
    its true line and column. */
module LexerLaws {
  import opened Wrappers
  import opened Tokens
  import opened Lexing

  // ----- what the scanner can produce -----

  lemma WordIsProper(l: string)
    requires IsWord(l)
    ensures Proper(Tok(KeywordType(l), l))
  {
  }

  lemma SymbolIsProper(c: char)
    ensures Single(c).Some? ==> Proper(Tok(Single(c).value, [c]))
    ensures Double(c).Some? ==>
      var (second, both, alone) := Double(c).value;
      Proper(Tok(both, [c, second])) && (alone.Some? ==> Proper(Tok(alone.value, [c])))
  {
    hide KeywordType, IsWord, IsNumeral, AllDigits;
  }

  /** Every token is one the parser's theorems allow, an error, or the end of the file. */
  lemma LexedIsProper(text: string, s: Cursor)
    requires s.pos <= |text|
    ensures var t := Lex(text, s).token.tok; Proper(t) || t.ty == ERROR_TOKEN || t.ty == EOF_TOKEN
  {
    hide Proper, KeywordType, IsWord, Skip;
    var s1 := Skip(text, s);
    if s1.pos < |text| {
      var c := text[s1.pos];
      SymbolIsProper(c);
      if IsAlpha(c) {
        ScannedWord(text, s1.pos);
      } else if IsDigit(c) {
        ScannedNumber(text, s1.pos);
      } else {
        ScannedSymbol(text, s1);
      }
    }
  }

  lemma ScannedWord(text: string, i: nat)
    requires i < |text| && IsAlpha(text[i])
    ensures var l := text[i..PastWord(text, i + 1)]; IsWord(l) && Proper(Tok(KeywordType(l), l))
  {
    var l := text[i..PastWord(text, i + 1)];
    assert l[0] == text[i];
    WordIsProper(l);
  }

  lemma ScannedNumber(text: string, i: nat)
    requires i < |text| && IsDigit(text[i])
    ensures var l := text[i..PastNumber(text, i + 1)];
      Proper(Tok(if '.' in l then FLOAT else INTEGER, l))
  {
    var l := text[i..PastNumber(text, i + 1)];
    assert l[0] == text[i];
    assert forall j :: 0 <= j < |l| ==> IsNumeric(l[j]);
  }

  lemma ScannedSymbol(text: string, s: Cursor)
    requires s.pos < |text| && !IsAlpha(text[s.pos]) && !IsDigit(text[s.pos])
    ensures var t := Scan(text, s).token.tok; Proper(t) || t.ty == ERROR_TOKEN
  {
    hide Proper;
    var c := text[s.pos];
    SymbolIsProper(c);
    assert text[s.pos..s.pos + 1] == [c];
    if s.pos + 2 <= |text| {
      assert text[s.pos..s.pos + 2] == [c, text[s.pos + 1]];
    }
  }

  // ----- true positions -----

  function Newlines(s: string): nat {
    if s == [] then 0 else Newlines(s[..|s| - 1]) + if s[|s| - 1] == '\n' then 1 else 0
  }

  /** The characters after the last newline. */
  function SinceNewline(s: string): nat {
    if s == [] || s[|s| - 1] == '\n' then 0 else SinceNewline(s[..|s| - 1]) + 1
  }

  function TrueCursor(text: string, i: nat): Cursor
    requires i <= |text|
  {
    Cursor(i, 1 + Newlines(text[..i]), 1 + SinceNewline(text[..i]))
  }

  lemma TrueNext(text: string, i: nat)
    requires i < |text|
    ensures TrueCursor(text, i + 1) == PastSpace(TrueCursor(text, i), text[i])
  {
    assert text[..i + 1][..i] == text[..i];
  }

  /** Over characters none of which is a newline. */
  lemma {:induction false} TrueAlong(text: string, i: nat, j: nat)
    requires i <= j <= |text| && forall m :: i <= m < j ==> text[m] != '\n'
    ensures var a := TrueCursor(text, i); TrueCursor(text, j) == Cursor(j, a.line, a.col + (j - i))
    decreases j - i
  {
    if i < j {
      TrueAlong(text, i, j - 1);
      TrueNext(text, j - 1);
    }
  }

  // ----- blanks -----

  /** A comment has a character before its newline: the scanner drops the one after `#` unseen. */
  datatype Piece = Space(c: char) | Comment(first: char, body: string) {
    predicate Valid() {
      if Space? then IsSpace(c) else first != '\n' && '\n' !in body
    }

    function Text(): string {
      if Space? then [c] else ['#', first] + body + ['\n']
    }
  }

  predicate ValidBlank(ps: seq<Piece>) {
    forall i :: 0 <= i < |ps| ==> ps[i].Valid()
  }

  function BlankText(ps: seq<Piece>): string {
    if ps == [] then [] else ps[0].Text() + BlankText(ps[1..])
  }

  /** `part` stands in the text at `i`. */
  predicate Stands(text: string, i: nat, part: string) {
    i + |part| <= |text| && text[i..i + |part|] == part
  }

  lemma StandsParts(text: string, i: nat, a: string, b: string)
    requires Stands(text, i, a + b)
    ensures Stands(text, i, a) && Stands(text, i + |a|, b)
  {
    var n := |a| + |b|;
    assert text[i..i + n][..|a|] == text[i..i + |a|];
    assert text[i..i + n][|a|..] == text[i + |a|..i + n];
  }

  lemma {:induction false} PastBody(text: string, i: nat, body: string)
    requires Stands(text, i, body + ['\n']) && '\n' !in body
    ensures PastLine(text, i) == i + |body| + 1
    decreases body
  {
    StandsParts(text, i, body, ['\n']);
    if body == [] {
      assert text[i] == '\n';
    } else {
      assert text[i] == body[0];
      assert body + ['\n'] == [body[0]] + (body[1..] + ['\n']);
      StandsParts(text, i, [body[0]], body[1..] + ['\n']);
      PastBody(text, i + 1, body[1..]);
    }
  }

  lemma SkipPiece(text: string, i: nat, p: Piece)
    requires p.Valid() && Stands(text, i, p.Text())
    ensures Skip(text, TrueCursor(text, i)) == Skip(text, TrueCursor(text, i + |p.Text()|))
  {
    assert text[i] == p.Text()[0];
    if p.Space? {
      TrueNext(text, i);
    } else {
      SkipComment(text, i, p);
    }
  }

  lemma SkipComment(text: string, i: nat, p: Piece)
    requires p.Comment? && p.Valid() && Stands(text, i, p.Text())
    ensures text[i] == '#'
    ensures PastComment(text, TrueCursor(text, i)) == TrueCursor(text, i + |p.Text()|)
  {
    var end := i + |p.Text()|;
    assert text[i] == p.Text()[0];
    assert p.Text() == ['#', p.first] + (p.body + ['\n']);
    StandsParts(text, i, ['#', p.first], p.body + ['\n']);
    PastBody(text, i + 2, p.body);
    forall m | i <= m < end - 1 ensures text[m] != '\n' {
      assert text[m] == p.Text()[m - i];
    }
    assert text[end - 1] == p.Text()[|p.Text()| - 1];
    TrueAlong(text, i, end - 1);
    TrueNext(text, end - 1);
  }

  predicate AtToken(text: string, i: nat) {
    i <= |text| && (i < |text| ==> !IsSpace(text[i]) && text[i] != '#')
  }

  lemma {:induction false} SkipBlank(text: string, i: nat, ps: seq<Piece>, end: nat)
    requires ValidBlank(ps) && Stands(text, i, BlankText(ps)) && end == i + |BlankText(ps)| && AtToken(text, end)
    ensures Skip(text, TrueCursor(text, i)) == TrueCursor(text, end)
    decreases ps
  {
    hide Skip, TrueCursor, Piece.Text, Stands, ValidBlank, AtToken;
    if ps == [] {
      SkipNothing(text, i);
    } else {
      var next := i + |ps[0].Text()|;
      BlankParts(ps);
      StandsParts(text, i, ps[0].Text(), BlankText(ps[1..]));
      SkipPiece(text, i, ps[0]);
      SkipBlank(text, next, ps[1..], end);
    }
  }

  lemma BlankParts(ps: seq<Piece>)
    requires ps != [] && ValidBlank(ps)
    ensures ps[0].Valid() && ValidBlank(ps[1..])
  {
  }

  lemma SkipNothing(text: string, i: nat)
    requires AtToken(text, i)
    ensures Skip(text, TrueCursor(text, i)) == TrueCursor(text, i)
  {
  }

  // ----- tokens -----

  /** Would the character be read as part of the token before it? */
  predicate Sticks(t: Tok, c: char) {
    if t.lexeme == [] then false
    else if IsAlpha(t.lexeme[0]) then IsAlnum(c)
    else if IsDigit(t.lexeme[0]) then IsNumeric(c)
    else t.lexeme in {"=", "!", ">", "<"} && c == '='
  }

  predicate Ended(text: string, i: nat, t: Tok) {
    i <= |text| && (i < |text| ==> !Sticks(t, text[i]))
  }

  lemma {:induction false} PastWordIs(text: string, i: nat, j: nat)
    requires i <= j <= |text| && (forall m :: i <= m < j ==> IsAlnum(text[m])) && (j < |text| ==> !IsAlnum(text[j]))
    ensures PastWord(text, i) == j
    decreases j - i
  {
    if i < j {
      PastWordIs(text, i + 1, j);
    }
  }

  lemma {:induction false} PastNumberIs(text: string, i: nat, j: nat)
    requires i <= j <= |text| && (forall m :: i <= m < j ==> IsNumeric(text[m])) && (j < |text| ==> !IsNumeric(text[j]))
    ensures PastNumber(text, i) == j
    decreases j - i
  {
    if i < j {
      PastNumberIs(text, i + 1, j);
    }
  }

  lemma ProperForm(t: Tok)
    requires Proper(t)
    ensures t.lexeme != []
    ensures IsAlpha(t.lexeme[0]) ==> IsWord(t.lexeme) && KeywordType(t.lexeme) == t.ty
    ensures IsDigit(t.lexeme[0]) ==> IsNumeral(t.lexeme) && t.ty == if '.' in t.lexeme then FLOAT else INTEGER
    ensures !IsAlpha(t.lexeme[0]) && !IsDigit(t.lexeme[0]) ==> IsSymbol(t)
    ensures !IsSpace(t.lexeme[0]) && t.lexeme[0] != '#'
    ensures '\n' !in t.lexeme
  {
    hide Proper, KeywordType, IsSymbol;
    WordForm(t);
    if !IsAlpha(t.lexeme[0]) && !IsDigit(t.lexeme[0]) {
      SymbolForm(t);
    }
  }

  /** Words and numbers start with a letter or a digit. */
  lemma WordForm(t: Tok)
    requires Proper(t)
    ensures t.lexeme != [] && '\n' !in t.lexeme
    ensures IsAlpha(t.lexeme[0]) ==> IsWord(t.lexeme) && KeywordType(t.lexeme) == t.ty
    ensures IsDigit(t.lexeme[0]) ==> IsNumeral(t.lexeme) && t.ty == if '.' in t.lexeme then FLOAT else INTEGER
  {
    if IsKeyword(t.ty) {
      KeywordForm(t);
    }
    hide KeywordType;
  }

  predicate IsKeyword(t: TokenType) {
    t.FUNC? || t.IF? || t.ELSE? || t.DO? || t.WHILE? || t.RETURN? || t.IO_PRINT? || t.TYPE? || t.BOOL?
  }

  lemma KeywordForm(t: Tok)
    requires Proper(t) && IsKeyword(t.ty)
    ensures IsWord(t.lexeme) && KeywordType(t.lexeme) == t.ty && '\n' !in t.lexeme
  {
  }

  /** ... and everything else is punctuation. */
  lemma SymbolForm(t: Tok)
    requires Proper(t) && t.lexeme != [] && !IsAlpha(t.lexeme[0]) && !IsDigit(t.lexeme[0])
    ensures IsSymbol(t) && !IsSpace(t.lexeme[0]) && t.lexeme[0] != '#'
  {
    hide KeywordType;
  }

  /** A token made of one or two punctuation characters. */
  predicate IsSymbol(t: Tok) {
    || (|t.lexeme| == 1 && (Single(t.lexeme[0]) == Some(t.ty)
         || (Double(t.lexeme[0]).Some? && Double(t.lexeme[0]).value.2 == Some(t.ty))))
    || (|t.lexeme| == 2 && Double(t.lexeme[0]).Some?
         && Double(t.lexeme[0]).value.0 == t.lexeme[1] && Double(t.lexeme[0]).value.1 == t.ty)
  }

  lemma ScanToken(text: string, i: nat, t: Tok)
    requires Proper(t) && Stands(text, i, t.lexeme) && Ended(text, i + |t.lexeme|, t)
    ensures i < |text|
    ensures var a := TrueCursor(text, i);
      Scan(text, a) == Lexed(Token(t, a.line, a.col), TrueCursor(text, i + |t.lexeme|))
  {
    hide Proper, KeywordType, SinceNewline, Newlines, Scan, IsSymbol, TrueCursor;
    ProperForm(t);
    var l, end := t.lexeme, i + |t.lexeme|;
    forall m | i <= m < end ensures text[m] == l[m - i] {
    }
    TrueAlong(text, i, end);
    assert TrueCursor(text, i).pos == i by { TrueAt(text, i); }
    if IsAlpha(l[0]) {
      PastWordIs(text, i + 1, end);
      ScanWord(text, TrueCursor(text, i), t);
    } else if IsDigit(l[0]) {
      PastNumberIs(text, i + 1, end);
      ScanNumeral(text, TrueCursor(text, i), t);
    } else {
      ScanSymbol(text, TrueCursor(text, i), t);
    }
  }

  lemma TrueAt(text: string, i: nat)
    requires i <= |text|
    ensures TrueCursor(text, i).pos == i
  {
    hide SinceNewline, Newlines;
  }

  lemma ScanWord(text: string, s: Cursor, t: Tok)
    requires Stands(text, s.pos, t.lexeme) && t.lexeme != [] && IsAlpha(t.lexeme[0]) && KeywordType(t.lexeme) == t.ty
    requires PastWord(text, s.pos + 1) == s.pos + |t.lexeme|
    ensures Scan(text, s) == Taken(text, s, t.ty, s.pos + |t.lexeme|)
  {
    hide KeywordType, PastWord;
    assert text[s.pos] == t.lexeme[0];
  }

  lemma ScanNumeral(text: string, s: Cursor, t: Tok)
    requires Stands(text, s.pos, t.lexeme) && t.lexeme != [] && IsDigit(t.lexeme[0])
    requires t.ty == if '.' in t.lexeme then FLOAT else INTEGER
    requires PastNumber(text, s.pos + 1) == s.pos + |t.lexeme|
    ensures Scan(text, s) == Taken(text, s, t.ty, s.pos + |t.lexeme|)
  {
    hide PastNumber;
    assert text[s.pos] == t.lexeme[0];
  }

  lemma ScanSymbol(text: string, s: Cursor, t: Tok)
    requires IsSymbol(t) && !IsAlpha(t.lexeme[0]) && !IsDigit(t.lexeme[0])
    requires Stands(text, s.pos, t.lexeme) && Ended(text, s.pos + |t.lexeme|, t)
    ensures Scan(text, s) == Taken(text, s, t.ty, s.pos + |t.lexeme|)
  {
    assert text[s.pos] == t.lexeme[0];
    if |t.lexeme| == 2 {
      assert text[s.pos + 1] == t.lexeme[1];
    } else {
      assert t.lexeme == [t.lexeme[0]];
    }
  }

  // ----- whole texts -----

  /** A token with the blanks in front of it. */
  datatype Item = Item(before: seq<Piece>, tok: Tok)

  function Written(items: seq<Item>, last: seq<Piece>): string {
    if items == [] then BlankText(last)
    else BlankText(items[0].before) + (items[0].tok.lexeme + Written(items[1..], last))
  }

  /** The tokens are proper, the blanks valid, and there is a blank wherever a token would run on
      into the next. */
  predicate Writable(items: seq<Item>, last: seq<Piece>) {
    if items == [] then ValidBlank(last)
    else
      && ValidBlank(items[0].before) && Proper(items[0].tok) && Writable(items[1..], last)
      && var rest := Written(items[1..], last); rest == [] || !Sticks(items[0].tok, rest[0])
  }

  /** The tokens, each at the true position of its first character. */
  function Placed(text: string, i: nat, items: seq<Item>): seq<Token>
    decreases items
  {
    if items == [] then []
    else
      var start := i + |BlankText(items[0].before)|;
      if start > |text| then []
      else
        [Token(items[0].tok, TrueCursor(text, start).line, TrueCursor(text, start).col)]
        + Placed(text, start + |items[0].tok.lexeme|, items[1..])
  }

  lemma {:induction false} LexWritten(text: string, i: nat, items: seq<Item>, last: seq<Piece>)
    requires Writable(items, last) && i <= |text| && text[i..] == Written(items, last)
    ensures LexAll(text, TrueCursor(text, i)) == Placed(text, i, items)
    decreases items
  {
    hide Writable, Proper, Sticks, TrueCursor, LexAll, BlankText, ValidBlank, Lex;
    if items == [] {
      LexBlank(text, i, last);
    } else {
      var t := items[0].tok;
      var start := i + |BlankText(items[0].before)|;
      var end := start + |t.lexeme|;
      ItemStands(text, i, items, last);
      LexItem(text, i, items[0]);
      LexWritten(text, end, items[1..], last);
      LexAllCons(text, TrueCursor(text, i));
    }
  }

  lemma LexBlank(text: string, i: nat, last: seq<Piece>)
    requires Writable([], last) && i <= |text| && text[i..] == Written([], last)
    ensures LexAll(text, TrueCursor(text, i)) == Placed(text, i, [])
  {
    hide SinceNewline, Newlines, BlankText, ValidBlank, Skip, Scan;
    StandsRest(text, i, BlankText(last));
    SkipBlank(text, i, last, |text|);
  }

  lemma LexAllCons(text: string, s: Cursor)
    requires s.pos <= |text|
    ensures var r := Lex(text, s);
      LexAll(text, s) == if r.token.tok.ty == EOF_TOKEN then [] else [r.token] + LexAll(text, r.next)
  {
    hide Lex;
  }

  lemma StandsRest(text: string, i: nat, part: string)
    requires i <= |text| && text[i..] == part
    ensures Stands(text, i, part) && i + |part| == |text|
  {
    assert text[i..i + |part|] == text[i..];
  }

  /** Where the first item and the rest of a written text stand. */
  lemma ItemStands(text: string, i: nat, items: seq<Item>, last: seq<Piece>)
    requires items != [] && Writable(items, last) && i <= |text| && text[i..] == Written(items, last)
    ensures var blank, t := BlankText(items[0].before), items[0].tok;
      var end := i + |blank| + |t.lexeme|;
      && ValidBlank(items[0].before) && Proper(t) && Writable(items[1..], last)
      && Stands(text, i, blank) && Stands(text, i + |blank|, t.lexeme) && end <= |text|
      && text[end..] == Written(items[1..], last) && Ended(text, end, t)
  {
    hide Proper, Sticks, BlankText, ValidBlank;
    var blank, t, rest := BlankText(items[0].before), items[0].tok, Written(items[1..], last);
    StandsRest(text, i, blank + (t.lexeme + rest));
    StandsParts(text, i, blank, t.lexeme + rest);
    StandsParts(text, i + |blank|, t.lexeme, rest);
    var end := i + |blank| + |t.lexeme|;
    assert text[end..] == rest;
    if rest != [] {
      assert text[end] == rest[0];
    }
  }

  /** One item is scanned as its token. */
  lemma LexItem(text: string, i: nat, item: Item)
    requires ValidBlank(item.before) && Proper(item.tok)
    requires var start := i + |BlankText(item.before)|;
      && Stands(text, i, BlankText(item.before)) && Stands(text, start, item.tok.lexeme)
      && Ended(text, start + |item.tok.lexeme|, item.tok)
    ensures var start := i + |BlankText(item.before)|;
      && start < |text| && item.tok.ty != EOF_TOKEN
      && Lex(text, TrueCursor(text, i)) ==
           Lexed(Token(item.tok, TrueCursor(text, start).line, TrueCursor(text, start).col),
                 TrueCursor(text, start + |item.tok.lexeme|))
  {
    ProperForm(item.tok);
    ProperIsNoEnd(item.tok);
    hide Proper, Sticks, Skip, Scan, BlankText;
    var start := i + |BlankText(item.before)|;
    ScanToken(text, start, item.tok);
    assert text[start] == item.tok.lexeme[0];
    SkipBlank(text, i, item.before, start);
  }

  lemma ProperIsNoEnd(t: Tok)
    requires Proper(t)
    ensures t.ty != EOF_TOKEN
  {
  }

  /** Tokens written with white space or comments between them (at least where two would run
      together), are scanned back with the same types and lexemes, and the position of each is one
      plus the newlines before it and one plus the characters since the last of them. */
  lemma ScanningUndoesWriting(items: seq<Item>, last: seq<Piece>)
    requires Writable(items, last)
    ensures var text := Written(items, last); LexAll(text, START) == Placed(text, 0, items)
    ensures Spells(LexAll(Written(items, last), START), items)
  {
    var text := Written(items, last);
    assert text[..0] == [] && text[0..] == text;
    assert TrueCursor(text, 0) == START;
    LexWritten(text, 0, items, last);
    PlacedTokens(text, 0, items, last, Placed(text, 0, items));
  }

  /** Do these tokens spell the items? */
  predicate Spells(r: seq<Token>, items: seq<Item>) {
    |r| == |items| && forall j :: 0 <= j < |r| ==> r[j].tok == items[j].tok
  }

  lemma SpellsCons(t: Token, r: seq<Token>, items: seq<Item>)
    requires items != [] && t.tok == items[0].tok && Spells(r, items[1..])
    ensures Spells([t] + r, items)
  {
    forall j | 0 <= j < |items| ensures ([t] + r)[j].tok == items[j].tok {
      if j > 0 {
        assert items[1..][j - 1] == items[j];
      }
    }
  }

  lemma {:induction false} PlacedTokens(text: string, i: nat, items: seq<Item>, last: seq<Piece>, r: seq<Token>)
    requires i <= |text| && text[i..] == Written(items, last) && Writable(items, last)
    requires r == Placed(text, i, items)
    ensures Spells(r, items)
    decreases items
  {
    hide Writable, Written, BlankText, TrueCursor, Stands, Proper, Ended, ValidBlank;
    if items != [] {
      hide Spells;
      ItemStands(text, i, items, last);
      PlacedTokens(text, i + |BlankText(items[0].before)| + |items[0].tok.lexeme|, items[1..], last, r[1..]);
      SpellsCons(r[0], r[1..], items);
      assert r == [r[0]] + r[1..];
    }
  }

  const SWALLOWED := "#\nx\ny"

  lemma SwallowedSkip()
    ensures Skip(SWALLOWED, START) == Cursor(4, 2, 1)
  {
    assert PastLine(SWALLOWED, 3) == 4;
    assert PastLine(SWALLOWED, 2) == 4;
    assert PastComment(SWALLOWED, START) == Cursor(4, 2, 1);
    assert Skip(SWALLOWED, Cursor(4, 2, 1)) == Cursor(4, 2, 1);
  }

  lemma SwallowedScan()
    ensures Scan(SWALLOWED, Cursor(4, 2, 1)) == Lexed(Token(Tok(SYMBOL, "y"), 2, 1), Cursor(5, 2, 2))
  {
    assert PastWord(SWALLOWED, 5) == 5;
    assert SWALLOWED[4..5] == "y";
  }

  /** A comment, `#` then `b` to the end of the line, is skipped to the true position after it if
      and only if `b` has a character, or the newline is the last character of the text. */
  lemma CommentIsSkippedExactlyWhen(text: string, i: nat, b: string)
    requires Stands(text, i, ['#'] + b + ['\n']) && '\n' !in b
    ensures PastComment(text, TrueCursor(text, i)) == TrueCursor(text, i + |b| + 2)
       <==> b != [] || i + 2 == |text|
  {
    hide TrueCursor, PastComment;
    if b != [] {
      var p := Comment(b[0], b[1..]);
      assert ['#'] + b + ['\n'] == p.Text();
      SkipComment(text, i, p);
    } else {
      assert ['#'] + b + ['\n'] == ['#', '\n'];
      EmptyComment(text, i);
    }
  }

  /** A comment that the end of the text ends, with no newline, is skipped to the end, but a line is
      counted for it all the same: the position is never the true one. */
  lemma UnendedComment(text: string, i: nat, b: string)
    requires Stands(text, i, ['#'] + b) && i + 1 + |b| == |text| && '\n' !in b
    ensures var s, t := TrueCursor(text, i), TrueCursor(text, |text|);
      PastComment(text, s) == Cursor(|text|, s.line + 1, 1) && t == Cursor(|text|, s.line, s.col + 1 + |b|)
  {
    forall k | i <= k < |text| ensures text[k] != '\n' {
      assert text[k] == text[i..][k - i];
      assert text[i..i + 1 + |b|] == text[i..];
    }
    TrueAlong(text, i, |text|);
    PastLastLine(text, if i + 2 <= |text| then i + 2 else |text|);
    assert TrueCursor(text, i).pos == i;
  }

  lemma {:induction false} PastLastLine(text: string, i: nat)
    requires i <= |text| && forall k :: i <= k < |text| ==> text[k] != '\n'
    ensures PastLine(text, i) == |text|
    decreases |text| - i
  {
    if i < |text| {
      PastLastLine(text, i + 1);
    }
  }

  lemma EmptyComment(text: string, i: nat)
    requires Stands(text, i, ['#', '\n'])
    ensures PastComment(text, TrueCursor(text, i)) == TrueCursor(text, i + 2) <==> i + 2 == |text|
  {
    hide Newlines, SinceNewline;
    assert text[i] == text[i..i + 2][0] && text[i + 1] == text[i..i + 2][1];
    TrueNext(text, i);
    TrueNext(text, i + 1);
    assert TrueCursor(text, i + 2).pos == i + 2;
  }

  /** A `#` directly before a newline swallows the line after it as well: of `x` and `y`, each on
      a line of its own after the comment, only `y` is left, and its line is off by one. */
  lemma HashBeforeNewline()
    ensures LexAll(SWALLOWED, START) == [Token(Tok(SYMBOL, "y"), 2, 1)]
    ensures TrueCursor(SWALLOWED, 4) == Cursor(4, 3, 1)
  {
    SwallowedSkip();
    SwallowedScan();
    assert TrueCursor(SWALLOWED, 4).line == 3 by {
      assert SWALLOWED[..4][..3] == SWALLOWED[..3] && SWALLOWED[..3][..2] == SWALLOWED[..2];
      assert SWALLOWED[..2][..1] == SWALLOWED[..1];
      assert Newlines(SWALLOWED[..1]) == 0;
      assert Newlines(SWALLOWED[..2]) == 1;
      assert Newlines(SWALLOWED[..3]) == 1;
    }
    hide Skip, Scan;
    var end := Cursor(5, 2, 2);
    LexAllCons(SWALLOWED, START);
    LexAllCons(SWALLOWED, end);
    AtEnd(SWALLOWED, end);
  }

  lemma AtEnd(text: string, s: Cursor)
    requires s.pos == |text|
    ensures Skip(text, s) == s
  {
  }
}
