/** The scanner as it is written: a cursor into a file that reads and un-reads one character, and
    a slot for one token that has been pushed back. */
module Lexer {
  import opened Wrappers
  import opened Tokens
  import opened Lexing

  const NO_TOKEN := Token(END_OF_FILE, 0, 0)

  /** The end of the file stands for an empty slot. */
  predicate IsEnd(t: Token) { t.tok.ty == EOF_TOKEN }

  /** The buffer holds the text from `i` up to `j`. */
  ghost predicate Holds(text: string, buffer: string, i: nat, j: nat) {
    i <= j <= |text| && buffer == text[i..j]
  }

  lemma HoldsNext(text: string, buffer: string, i: nat, j: nat)
    requires Holds(text, buffer, i, j) && j < |text|
    ensures Holds(text, buffer + [text[j]], i, j + 1)
  {
  }

  lemma HoldsFirst(text: string, i: nat)
    requires i < |text|
    ensures Holds(text, [text[i]], i, i + 1)
  {
  }

  lemma HeldText(text: string, buffer: string, i: nat, j: nat)
    requires Holds(text, buffer, i, j)
    ensures i <= j <= |text| && buffer == text[i..j] && |buffer| == j - i
  {
  }

  /** One more character of a word, or its end. */
  lemma WordNext(text: string, i: nat)
    requires i <= |text|
    ensures PastWord(text, i) == if i < |text| && IsAlnum(text[i]) then PastWord(text, i + 1) else i
  {
  }

  /** One more character of a number, or its end. */
  lemma NumberNext(text: string, i: nat)
    requires i <= |text|
    ensures PastNumber(text, i) == if i < |text| && IsNumeric(text[i]) then PastNumber(text, i + 1) else i
  {
  }

  predicate HasDot(s: string) { '.' in s }

  lemma DotNext(s: string, c: char)
    ensures HasDot(s + [c]) <==> HasDot(s) || c == '.'
    ensures HasDot([c]) <==> c == '.'
  {
  }

  class Lexer {
    const text: string
    var pos: nat
    var line: int
    var col: int
    var saved: Token

    ghost predicate Valid()
      reads this
    {
      pos <= |text| && (IsEnd(saved) ==> saved.tok == END_OF_FILE)
    }

    ghost function Here(): Cursor
      reads this
    {
      Cursor(pos, line, col)
    }

    /** The tokens still to come: the one pushed back, then those of the rest of the file. */
    ghost function Remaining(): seq<Token>
      reads this
      requires Valid()
    {
      (if IsEnd(saved) then [] else [saved]) + LexAll(text, Here())
    }

    constructor (file: string)
      ensures Valid() && text == file && IsEnd(saved)
      ensures Here() == START && Remaining() == LexAll(file, START)
    {
      text, pos, line, col, saved := file, 0, 1, 1, NO_TOKEN;
    }

    /** The character just read, if any, is the one before `pos`. */
    ghost predicate JustRead(ch: Option<char>)
      reads this
    {
      Valid() && if ch.Some? then 0 < pos && text[pos - 1] == ch.value else pos == |text|
    }

    /** The position of the character just read. */
    ghost function Before(ch: Option<char>): Cursor
      reads this
      requires JustRead(ch)
    {
      Cursor(if ch.Some? then pos - 1 else pos, line, col)
    }

    method GetChar() returns (ch: Option<char>)
      requires Valid()
      modifies this`pos
      ensures JustRead(ch) && ch == CharAt(text, old(pos))
      ensures pos == if ch.Some? then old(pos) + 1 else old(pos)
    {
      ch := CharAt(text, pos);
      if ch.Some? {
        pos := pos + 1;
      }
    }

    /** Un-read a character; un-reading the end of the file does nothing. */
    method UngetChar(ch: Option<char>)
      requires JustRead(ch)
      modifies this`pos
      ensures Valid() && pos == if ch.Some? then old(pos) - 1 else old(pos)
    {
      if ch.Some? {
        pos := pos - 1;
      }
    }

    method Whitespace(ch: char)
      requires JustRead(Some(ch)) && IsSpace(ch)
      modifies this`line, this`col
      ensures Here() == PastSpace(old(Before(Some(ch))), ch)
    {
      if ch == '\n' {
        col := 1;
        line := line + 1;
      } else {
        col := col + 1;
      }
    }

    method SkipComment()
      requires JustRead(Some('#'))
      modifies this`pos, this`line, this`col
      ensures Valid() && Here() == PastComment(text, old(Before(Some('#'))))
    {
      var ch := GetChar();
      ghost var i := pos;
      ch := GetChar();
      while ch.Some? && ch.value != '\n'
        invariant JustRead(ch) && i <= |text| && line == old(line)
        invariant PastLine(text, i) == if ch.Some? && ch.value != '\n' then PastLine(text, pos) else pos
        decreases |text| - pos, ch.Some?
      {
        ch := GetChar();
      }
      col := 1;
      line := line + 1;
    }

    method Identifier(begin: char) returns (buffer: string)
      requires JustRead(Some(begin)) && IsAlpha(begin)
      modifies this`pos, this`col
      ensures Valid() && pos == PastWord(text, old(pos))
      ensures Holds(text, buffer, old(pos) - 1, pos) && col == old(col) + |buffer|
    {
      hide PastWord, Holds;
      HoldsFirst(text, pos - 1);
      buffer := [begin];
      col := col + 1;
      ghost var start, here := pos - 1, pos;
      var ch := GetChar();
      WordNext(text, here);
      while ch.Some? && IsAlnum(ch.value)
        invariant JustRead(ch) && Before(ch).pos == here && Holds(text, buffer, start, here)
        invariant PastWord(text, old(pos)) == if ch.Some? && IsAlnum(ch.value) then PastWord(text, here + 1) else here
        invariant col == old(col) + |buffer|
        decreases |text| - pos, ch.Some?
      {
        HoldsNext(text, buffer, start, here);
        buffer := buffer + [ch.value];
        col := col + 1;
        here := pos;
        ch := GetChar();
        WordNext(text, here);
      }
      UngetChar(ch);
    }

    method IdentifierOrKeyword(begin: char) returns (t: Token)
      requires JustRead(Some(begin)) && IsAlpha(begin)
      modifies this`pos, this`col
      ensures Valid() && Lexed(t, Here()) == Scan(text, old(Before(Some(begin))))
    {
      ghost var start := pos - 1;
      var lexeme := Identifier(begin);
      HeldText(text, lexeme, start, pos);
      var ty := SYMBOL;
      if lexeme == "func" { ty := FUNC; }
      if lexeme == "if" { ty := IF; }
      if lexeme == "else" { ty := ELSE; }
      if lexeme == "do" { ty := DO; }
      if lexeme == "while" { ty := WHILE; }
      if lexeme == "return" { ty := RETURN; }
      if lexeme == "int" { ty := TYPE; }
      if lexeme == "float" { ty := TYPE; }
      if lexeme == "bool" { ty := TYPE; }
      if lexeme == "False" { ty := BOOL; }
      if lexeme == "True" { ty := BOOL; }
      if lexeme == "print" { ty := IO_PRINT; }
      t := Token(Tok(ty, lexeme), line, col - |lexeme|);
    }

    /** The characters of a number, and whether there is a dot among them. */
    method NumberText(begin: char) returns (buffer: string, ty: TokenType)
      requires JustRead(Some(begin)) && IsDigit(begin)
      modifies this`pos, this`col
      ensures Valid() && pos == PastNumber(text, old(pos))
      ensures Holds(text, buffer, old(pos) - 1, pos) && col == old(col) + |buffer|
      ensures ty == if HasDot(buffer) then FLOAT else INTEGER
    {
      hide HasDot, PastNumber, Holds, CharAt;
      DotNext([], begin);
      HoldsFirst(text, pos - 1);
      buffer, ty := [begin], INTEGER;
      col := col + 1;
      ghost var start, here := pos - 1, pos;
      var ch := GetChar();
      while ch.Some? && IsNumeric(ch.value)
        invariant JustRead(ch) && ch == CharAt(text, here) && pos == if ch.Some? then here + 1 else here
        invariant PastNumber(text, old(pos)) == PastNumber(text, here) && Holds(text, buffer, start, here)
        invariant col == old(col) + |buffer| && ty == if HasDot(buffer) then FLOAT else INTEGER
        decreases |text| - pos, ch.Some?
      {
        if ch.value == '.' {
          ty := FLOAT;
        }
        NumberNext(text, here);
        HoldsNext(text, buffer, start, here);
        DotNext(buffer, ch.value);
        buffer := buffer + [ch.value];
        col := col + 1;
        here := pos;
        ch := GetChar();
      }
      NumberNext(text, here);
      UngetChar(ch);
    }

    method Number(begin: char) returns (t: Token)
      requires JustRead(Some(begin)) && IsDigit(begin)
      modifies this`pos, this`col
      ensures Valid() && Lexed(t, Here()) == Scan(text, old(Before(Some(begin))))
    {
      ghost var start := pos - 1;
      var buffer, ty := NumberText(begin);
      HeldText(text, buffer, start, pos);
      t := Token(Tok(ty, buffer), line, col - |buffer|);
    }

    /** Past the white space from the character just read on. */
    method SkipSpaces(first: Option<char>) returns (ch: Option<char>)
      requires JustRead(first)
      modifies this`pos, this`line, this`col
      ensures JustRead(ch) && (ch.Some? ==> !IsSpace(ch.value))
      ensures Skip(text, Before(ch)) == old(Skip(text, Before(first))) && old(Before(first)).pos <= Before(ch).pos
    {
      ch := first;
      while ch.Some? && IsSpace(ch.value)
        invariant JustRead(ch) && old(Before(first)).pos <= Before(ch).pos
        invariant Skip(text, Before(ch)) == old(Skip(text, Before(first)))
        decreases |text| - pos, ch.Some?
      {
        Whitespace(ch.value);
        ch := GetChar();
      }
    }

    /** A symbol of one character. */
    method Symbol(ty: TokenType, lexeme: string) returns (t: Token)
      requires 0 < pos && |lexeme| <= pos && Valid()
      modifies this`col
      ensures t == Token(Tok(ty, lexeme), line, old(col)) && col == old(col) + |lexeme|
    {
      col := col + |lexeme|;
      t := Token(Tok(ty, lexeme), line, col - |lexeme|);
    }

    /** The next token: the one pushed back, if there is one. */
    method Lex() returns (t: Token)
      requires Valid()
      modifies this
      ensures Valid() && IsEnd(saved)
      ensures !IsEnd(old(saved)) ==> t == old(saved) && Here() == old(Here())
      ensures IsEnd(old(saved)) ==> Lexed(t, Here()) == old(Lexing.Lex(text, Here()))
      ensures IsEnd(t) ==> t.tok == END_OF_FILE && old(Remaining()) == [] && Remaining() == []
      ensures !IsEnd(t) ==> old(Remaining()) == [t] + Remaining()
    {
      hide Skip, Scan;
      if !IsEnd(saved) {
        t := saved;
        saved := NO_TOKEN;
      } else {
        t := LexFile();
      }
    }

    method LexFile() returns (t: Token)
      requires Valid() && IsEnd(saved)
      modifies this`pos, this`line, this`col
      ensures Valid() && Lexed(t, Here()) == old(Lexing.Lex(text, Here()))
    {
      hide Scan, PastComment;
      var ch := GetChar();
      ch := SkipSpaces(ch);
      while ch == Some('#')
        invariant JustRead(ch) && (ch.Some? ==> !IsSpace(ch.value))
        invariant Skip(text, Before(ch)) == old(Skip(text, Here()))
        decreases |text| - pos, ch.Some?
      {
        SkipComment();
        ch := GetChar();
        ch := SkipSpaces(ch);
      }
      t := ScanFrom(ch);
    }

    /** The token that starts with the character just read. */
    method ScanFrom(ch: Option<char>) returns (t: Token)
      requires JustRead(ch) && (ch.Some? ==> !IsSpace(ch.value) && ch.value != '#')
      modifies this`pos, this`col
      ensures Valid()
      ensures ch.None? ==> t == Token(END_OF_FILE, line, col) && Here() == old(Here())
      ensures ch.Some? ==> Lexed(t, Here()) == Scan(text, old(Before(ch)))
    {
      if ch.None? { return Token(END_OF_FILE, line, col); }
      var c := ch.value;
      if IsAlpha(c) { t := IdentifierOrKeyword(c); return; }
      if IsDigit(c) { t := Number(c); return; }
      if c == '(' { t := Symbol(PL, "("); return; }
      if c == ')' { t := Symbol(PR, ")"); return; }
      if c == '{' { t := Symbol(BL, "{"); return; }
      if c == '}' { t := Symbol(BR, "}"); return; }
      if c == ',' { t := Symbol(COMMA, ","); return; }
      if c == ';' { t := Symbol(SEMICOLON, ";"); return; }
      if c == ':' { t := Symbol(COLON, ":"); return; }
      if c == '+' { t := Symbol(ADD, "+"); return; }
      if c == '-' { t := Symbol(ADD, "-"); return; }
      if c == '*' { t := Symbol(MUL, "*"); return; }
      if c == '/' { t := Symbol(MUL, "/"); return; }
      t := ScanOperator(c);
    }

    /** The comparisons, the logical operators and `=`: one character of look-ahead. */
    method ScanOperator(c: char) returns (t: Token)
      requires JustRead(Some(c)) && !IsAlpha(c) && !IsDigit(c) && Single(c).None?
      modifies this`pos, this`col
      ensures Valid() && Lexed(t, Here()) == Scan(text, old(Before(Some(c))))
    {
      if c in {'=', '!', '>', '<', '&', '|'} {
        var next := GetChar();
        if next == Some(if c in {'&', '|'} then c else '=') {
          col := col + 2;
          var lexeme := [c, next.value];
          var ty := if c == '=' || c == '!' then CMP_EQ else if c == '&' then LAND else if c == '|' then LOR else CMP;
          return Token(Tok(ty, lexeme), line, col - 2);
        }
        UngetChar(next);
        col := col + 1;
        if c == '=' { return Token(Tok(ASSIGN, "="), line, col - 1); }
        if c == '!' { return Token(Tok(NOT, "!"), line, col - 1); }
        if c == '>' || c == '<' { return Token(Tok(CMP, [c]), line, col - 1); }
      }
      t := Token(Undefined(c), line, col);
      col := col + 1;
    }

    /** Push a token back.  There is room for one. */
    method Unlex(t: Token)
      requires Valid() && IsEnd(saved) && (IsEnd(t) ==> t.tok == END_OF_FILE && Remaining() == [])
      modifies this`saved
      ensures Valid() && saved == t && Here() == old(Here())
      ensures Remaining() == (if IsEnd(t) then [] else [t]) + old(Remaining())
    {
      saved := t;
    }
  }
}
