/** What the scanner does on any text: over blanks to the longest proper token that stands there, or
    to an error if none does.  Blanks are described here apart from the functions that skip them. */
module NextTokens {
  import opened Wrappers
  import opened Tokens
  import opened Lexing
  import opened LexerLaws

  const SPACES := {' ', '\t', '\n', '\U{0B}', '\U{0C}', '\r'}

  /** A comment from `i` to `m`: `#`, a character of any kind, and then up to and with the first
      newline, or to the end of the text. */
  predicate CommentAt(text: string, i: nat, m: nat) {
    && i < m <= |text| && text[i] == '#'
    && (m == |text| || (m > i + 2 && text[m - 1] == '\n'))
    && forall k :: i + 2 <= k < m - 1 ==> text[k] != '\n'
  }

  /** There is nothing but white space and comments from `i` to `j`. */
  ghost predicate Blank(text: string, i: nat, j: nat)
    decreases j - i
  {
    || i == j <= |text|
    || (i < j <= |text| && text[i] in SPACES && Blank(text, i + 1, j))
    || exists m :: i < m <= j && CommentAt(text, i, m) && Blank(text, m, j)
  }

  /** A proper token that is written in the text at `j`. */
  predicate TokenAt(text: string, j: nat, t: Tok) {
    Proper(t) && Stands(text, j, t.lexeme)
  }

  /** Of all proper tokens written there, this one is the longest, and no other is as long. */
  ghost predicate LongestAt(text: string, j: nat, tok: Tok) {
    TokenAt(text, j, tok) && forall t :: TokenAt(text, j, t) && t != tok ==> |t.lexeme| < |tok.lexeme|
  }

  ghost predicate NoTokenAt(text: string, j: nat) {
    forall t :: !TokenAt(text, j, t)
  }

  /** What is scanned from `j`, where no blank starts: a token, an error for one character, or the
      end of the file. */
  ghost predicate ScannedAt(text: string, j: nat, r: Lexed) {
    if j == |text| then r.token.tok == END_OF_FILE && r.next.pos == j
    else
      && j < |text| && text[j] !in SPACES && text[j] != '#'
      && if NoTokenAt(text, j) then r.token.tok == Tok(ERROR_TOKEN, "Undefined symbol: " + [text[j]]) && r.next.pos == j + 1
         else LongestAt(text, j, r.token.tok) && r.next.pos == j + |r.token.tok.lexeme|
  }

  // ----- blanks -----

  lemma SpacesAre(c: char)
    ensures IsSpace(c) <==> c in SPACES
  {
  }

  lemma {:induction false} PastLineEnds(text: string, i: nat)
    requires i <= |text|
    ensures var m := PastLine(text, i);
      (m == |text| || (m > i && text[m - 1] == '\n')) && forall k :: i <= k < m - 1 ==> text[k] != '\n'
    decreases |text| - i
  {
    if i < |text| && text[i] != '\n' {
      PastLineEnds(text, i + 1);
    }
  }

  lemma CommentPassed(text: string, s: Cursor)
    requires s.pos < |text| && text[s.pos] == '#'
    ensures CommentAt(text, s.pos, PastComment(text, s).pos)
  {
    PastLineEnds(text, if s.pos + 2 <= |text| then s.pos + 2 else |text|);
  }

  lemma {:induction false} SkippedIsBlank(text: string, s: Cursor)
    requires s.pos <= |text|
    ensures Blank(text, s.pos, Skip(text, s).pos)
    decreases |text| - s.pos
  {
    if s.pos < |text| {
      var c := text[s.pos];
      SpacesAre(c);
      if IsSpace(c) {
        SkippedIsBlank(text, PastSpace(s, c));
      } else if c == '#' {
        CommentPassed(text, s);
        SkippedIsBlank(text, PastComment(text, s));
      }
    }
  }

  // ----- tokens -----

  lemma {:induction false} WordsEnd(text: string, i: nat, l: string)
    requires Stands(text, i, l) && forall k :: 0 <= k < |l| ==> IsAlnum(l[k])
    ensures i + |l| <= PastWord(text, i)
    decreases |l|
  {
    if l != [] {
      assert text[i] == l[0] by { assert text[i..i + |l|][0] == text[i]; }
      assert text[i + 1..i + |l|] == text[i..i + |l|][1..];
      WordsEnd(text, i + 1, l[1..]);
    }
  }

  lemma {:induction false} NumbersEnd(text: string, i: nat, l: string)
    requires Stands(text, i, l) && forall k :: 0 <= k < |l| ==> IsNumeric(l[k])
    ensures i + |l| <= PastNumber(text, i)
    decreases |l|
  {
    if l != [] {
      assert text[i] == l[0] by { assert text[i..i + |l|][0] == text[i]; }
      assert text[i + 1..i + |l|] == text[i..i + |l|][1..];
      NumbersEnd(text, i + 1, l[1..]);
    }
  }

  lemma StandsFirst(text: string, j: nat, l: string)
    requires Stands(text, j, l) && l != []
    ensures j < |text| && text[j] == l[0] && (|l| > 1 ==> text[j + 1] == l[1])
  {
    assert text[j..j + |l|][0] == text[j];
    assert |l| > 1 ==> text[j..j + |l|][1] == text[j + 1];
  }

  /** A token in the text is no longer than the one scanned. */
  lemma NoneLonger(text: string, s: Cursor, t: Tok)
    requires s.pos < |text| && TokenAt(text, s.pos, t)
    ensures var r := Scan(text, s).token.tok;
      Proper(r) && |t.lexeme| <= |r.lexeme| && (|t.lexeme| == |r.lexeme| ==> t == r)
  {
    hide Proper, KeywordType, Scan;
    ProperForm(t);
    StandsFirst(text, s.pos, t.lexeme);
    if IsAlpha(text[s.pos]) {
      NoneLongerWord(text, s, t);
    } else if IsDigit(text[s.pos]) {
      NoneLongerNumber(text, s, t);
    } else {
      NoneLongerSymbol(text, s, t);
    }
  }

  lemma NoneLongerWord(text: string, s: Cursor, t: Tok)
    requires s.pos < |text| && Stands(text, s.pos, t.lexeme) && IsAlpha(text[s.pos])
    requires IsWord(t.lexeme) && KeywordType(t.lexeme) == t.ty
    ensures var r := Scan(text, s).token.tok;
      Proper(r) && |t.lexeme| <= |r.lexeme| && (|t.lexeme| == |r.lexeme| ==> t == r)
  {
    hide Proper, KeywordType;
    ScannedWord(text, s.pos);
    WordsEnd(text, s.pos, t.lexeme);
  }

  lemma NoneLongerNumber(text: string, s: Cursor, t: Tok)
    requires s.pos < |text| && Stands(text, s.pos, t.lexeme) && IsDigit(text[s.pos])
    requires IsNumeral(t.lexeme) && t.ty == if '.' in t.lexeme then FLOAT else INTEGER
    ensures var r := Scan(text, s).token.tok;
      Proper(r) && |t.lexeme| <= |r.lexeme| && (|t.lexeme| == |r.lexeme| ==> t == r)
  {
    hide Proper;
    ScannedNumber(text, s.pos);
    NumbersEnd(text, s.pos, t.lexeme);
  }

  lemma NoneLongerSymbol(text: string, s: Cursor, t: Tok)
    requires s.pos < |text| && Stands(text, s.pos, t.lexeme) && !IsAlpha(text[s.pos]) && !IsDigit(text[s.pos])
    requires t.lexeme != [] && IsSymbol(t)
    ensures var r := Scan(text, s).token.tok;
      Proper(r) && |t.lexeme| <= |r.lexeme| && (|t.lexeme| == |r.lexeme| ==> t == r)
  {
    hide Proper;
    StandsFirst(text, s.pos, t.lexeme);
    SymbolIsProper(text[s.pos]);
    assert text[s.pos..s.pos + 1] == [text[s.pos]];
    if s.pos + 2 <= |text| {
      assert text[s.pos..s.pos + 2] == [text[s.pos], text[s.pos + 1]];
    }
  }

  ghost predicate StandsThere(text: string, s: Cursor, r: Lexed) {
    var t := r.token.tok;
    Proper(t) && Stands(text, s.pos, t.lexeme) && r.next.pos == s.pos + |t.lexeme|
  }

  lemma TakenStands(text: string, s: Cursor, ty: TokenType, end: nat)
    requires s.pos <= end <= |text| && Proper(Tok(ty, text[s.pos..end]))
    ensures StandsThere(text, s, Taken(text, s, ty, end))
  {
    hide Proper;
  }

  /** What is scanned is an error for one character, or stands in the text. */
  lemma ScannedStands(text: string, s: Cursor)
    requires s.pos < |text|
    ensures var r := Scan(text, s);
      (r.token.tok == Undefined(text[s.pos]) && r.next.pos == s.pos + 1) || StandsThere(text, s, r)
  {
    hide Proper, KeywordType, StandsThere, Taken, PastWord, PastNumber;
    var c := text[s.pos];
    if IsAlpha(c) {
      ScannedWord(text, s.pos);
      var end := PastWord(text, s.pos + 1);
      TakenStands(text, s, KeywordType(text[s.pos..end]), end);
    } else if IsDigit(c) {
      ScannedNumber(text, s.pos);
      var end := PastNumber(text, s.pos + 1);
      TakenStands(text, s, if '.' in text[s.pos..end] then FLOAT else INTEGER, end);
    } else {
      SymbolStands(text, s);
    }
  }

  lemma SymbolStands(text: string, s: Cursor)
    requires s.pos < |text| && !IsAlpha(text[s.pos]) && !IsDigit(text[s.pos])
    ensures var r := Scan(text, s);
      (r.token.tok == Undefined(text[s.pos]) && r.next.pos == s.pos + 1) || StandsThere(text, s, r)
  {
    hide Proper, StandsThere, Taken;
    var c := text[s.pos];
    SymbolIsProper(c);
    assert text[s.pos..s.pos + 1] == [c];
    match Single(c)
    case Some(ty) => TakenStands(text, s, ty, s.pos + 1);
    case None =>
      if Double(c).Some? {
        var (second, both, alone) := Double(c).value;
        if Sees(text, s.pos + 1, second) {
          assert text[s.pos..s.pos + 2] == [c, second];
          TakenStands(text, s, both, s.pos + 2);
        } else if alone.Some? {
          TakenStands(text, s, alone.value, s.pos + 1);
        }
      }
  }

  /** From any cursor in any text the scanner goes over blanks, all there are, to a position `j`, and
      there reads the longest proper token that is written in the text.  It reports an error exactly if
      none is, and then for one character; at the end of the text it reports the end of the file. */
  lemma NextToken(text: string, s: Cursor) returns (j: nat)
    requires s.pos <= |text|
    ensures Blank(text, s.pos, j) && ScannedAt(text, j, Lex(text, s))
  {
    hide Blank, Proper, Scan, Skip;
    var s1 := Skip(text, s);
    j := s1.pos;
    SkippedIsBlank(text, s);
    if j < |text| {
      SpacesAre(text[j]);
      ScannedStands(text, s1);
      forall t | TokenAt(text, j, t)
        ensures var r := Scan(text, s1).token.tok;
          Proper(r) && |t.lexeme| <= |r.lexeme| && (|t.lexeme| == |r.lexeme| ==> t == r)
      {
        NoneLonger(text, s1, t);
      }
      UndefinedIsNotProper(text[j]);
      assert Proper(Scan(text, s1).token.tok) ==> TokenAt(text, j, Scan(text, s1).token.tok);
    }
  }

  lemma UndefinedIsNotProper(c: char)
    ensures !Proper(Undefined(c)) && Undefined(c).ty == ERROR_TOKEN
  {
  }

  /** There is only one such position. */
  lemma {:induction false} OneStart(text: string, i: nat, j: nat, m: nat)
    requires Blank(text, i, j) && Blank(text, i, m)
    requires j < |text| ==> text[j] !in SPACES && text[j] != '#'
    requires m < |text| ==> text[m] !in SPACES && text[m] != '#'
    ensures j == m
    decreases |text| - i
  {
    if i < |text| {
      if text[i] in SPACES {
        OneStart(text, i + 1, j, m);
      } else if text[i] == '#' {
        var a :| i < a <= j && CommentAt(text, i, a) && Blank(text, a, j);
        var b :| i < b <= m && CommentAt(text, i, b) && Blank(text, b, m);
        assert a == b;
        OneStart(text, a, j, m);
      }
    }
  }
}
