/** The scanner as functions on a text and a position in it.

    This is the specification the methods of `Lexer` are proved against.  Texts are ASCII; the end
    of the file is the end of the text. */
module Lexing {
  import opened Wrappers
  import opened Tokens

  /** A token and where it starts. */
  datatype Token = Token(tok: Tok, line: int, col: int)

  /** `pos` is the next character to read. */
  datatype Cursor = Cursor(pos: nat, line: int, col: int)

  datatype Lexed = Lexed(token: Token, next: Cursor)

  const START := Cursor(0, 1, 1)

  function CharAt(text: string, i: nat): Option<char> {
    if i < |text| then Some(text[i]) else None
  }

  predicate Sees(text: string, i: nat, c: char) { i < |text| && text[i] == c }

  // ----- white space and comments -----

  function PastSpace(s: Cursor, c: char): Cursor {
    if c == '\n' then Cursor(s.pos + 1, s.line + 1, 1) else Cursor(s.pos + 1, s.line, s.col + 1)
  }

  /** The position after the next newline, or the end. */
  function PastLine(text: string, i: nat): (r: nat)
    requires i <= |text|
    ensures i <= r <= |text|
    decreases |text| - i
  {
    if i == |text| then i else if text[i] == '\n' then i + 1 else PastLine(text, i + 1)
  }

  /** After a `#` at `s`: the character after it is dropped unseen, then the rest of the line.  One
      line is counted. */
  function PastComment(text: string, s: Cursor): (r: Cursor)
    requires s.pos < |text|
    ensures s.pos < r.pos <= |text|
  {
    var i := if s.pos + 2 <= |text| then s.pos + 2 else |text|;
    Cursor(PastLine(text, i), s.line + 1, 1)
  }

  function Skip(text: string, s: Cursor): (r: Cursor)
    requires s.pos <= |text|
    ensures s.pos <= r.pos <= |text|
    ensures r.pos < |text| ==> !IsSpace(text[r.pos]) && text[r.pos] != '#'
    decreases |text| - s.pos
  {
    if s.pos == |text| then s
    else if IsSpace(text[s.pos]) then Skip(text, PastSpace(s, text[s.pos]))
    else if text[s.pos] == '#' then Skip(text, PastComment(text, s))
    else s
  }

  // ----- words, numbers and symbols -----

  function PastWord(text: string, i: nat): (r: nat)
    requires i <= |text|
    ensures i <= r <= |text| && (forall j :: i <= j < r ==> IsAlnum(text[j]))
    ensures r < |text| ==> !IsAlnum(text[r])
    decreases |text| - i
  {
    if i < |text| && IsAlnum(text[i]) then PastWord(text, i + 1) else i
  }

  predicate IsNumeric(c: char) { IsDigit(c) || c == '.' }

  function PastNumber(text: string, i: nat): (r: nat)
    requires i <= |text|
    ensures i <= r <= |text| && (forall j :: i <= j < r ==> IsNumeric(text[j]))
    ensures r < |text| ==> !IsNumeric(text[r])
    decreases |text| - i
  {
    if i < |text| && IsNumeric(text[i]) then PastNumber(text, i + 1) else i
  }

  /** The token of type `ty` that is the text up to `end`. */
  function Taken(text: string, s: Cursor, ty: TokenType, end: nat): Lexed
    requires s.pos <= end <= |text|
  {
    Lexed(Token(Tok(ty, text[s.pos..end]), s.line, s.col), Cursor(end, s.line, s.col + (end - s.pos)))
  }

  function Single(c: char): Option<TokenType> {
    if c == '(' then Some(PL)
    else if c == ')' then Some(PR)
    else if c == '{' then Some(BL)
    else if c == '}' then Some(BR)
    else if c == ',' then Some(COMMA)
    else if c == ';' then Some(SEMICOLON)
    else if c == ':' then Some(COLON)
    else if c == '+' || c == '-' then Some(ADD)
    else if c == '*' || c == '/' then Some(MUL)
    else None
  }

  /** The type of the character followed by itself or by `=`, and the type it has alone. */
  function Double(c: char): Option<(char, TokenType, Option<TokenType>)> {
    if c == '=' then Some(('=', CMP_EQ, Some(ASSIGN)))
    else if c == '!' then Some(('=', CMP_EQ, Some(NOT)))
    else if c == '>' || c == '<' then Some(('=', CMP, Some(CMP)))
    else if c == '&' then Some(('&', LAND, None))
    else if c == '|' then Some(('|', LOR, None))
    else None
  }

  function Undefined(c: char): Tok { Tok(ERROR_TOKEN, "Undefined symbol: " + [c]) }

  /** The token that starts at `s`.  A lone `&` or `|` advances the column twice. */
  function Scan(text: string, s: Cursor): (r: Lexed)
    requires s.pos < |text|
    ensures s.pos < r.next.pos <= |text|
  {
    var c := text[s.pos];
    if IsAlpha(c) then
      var end := PastWord(text, s.pos + 1);
      Taken(text, s, KeywordType(text[s.pos..end]), end)
    else if IsDigit(c) then
      var end := PastNumber(text, s.pos + 1);
      Taken(text, s, if '.' in text[s.pos..end] then FLOAT else INTEGER, end)
    else
      match Single(c)
      case Some(ty) => Taken(text, s, ty, s.pos + 1)
      case None =>
        match Double(c)
        case None => Lexed(Token(Undefined(c), s.line, s.col), Cursor(s.pos + 1, s.line, s.col + 1))
        case Some((second, both, alone)) =>
          if Sees(text, s.pos + 1, second) then Taken(text, s, both, s.pos + 2)
          else if alone.Some? then Taken(text, s, alone.value, s.pos + 1)
          else Lexed(Token(Undefined(c), s.line, s.col + 1), Cursor(s.pos + 1, s.line, s.col + 2))
  }

  /** The next token, or the end of the file. */
  function Lex(text: string, s: Cursor): (r: Lexed)
    requires s.pos <= |text|
    ensures s.pos <= r.next.pos <= |text|
    ensures r.token.tok.ty == EOF_TOKEN ==> r.token.tok == END_OF_FILE && r.next.pos == |text|
    ensures r.token.tok.ty != EOF_TOKEN ==> s.pos < r.next.pos
  {
    var s1 := Skip(text, s);
    if s1.pos == |text| then Lexed(Token(END_OF_FILE, s1.line, s1.col), s1) else Scan(text, s1)
  }

  /** All the tokens from here on. */
  function LexAll(text: string, s: Cursor): seq<Token>
    requires s.pos <= |text|
    decreases |text| - s.pos
  {
    var r := Lex(text, s);
    if r.token.tok.ty == EOF_TOKEN then [] else [r.token] + LexAll(text, r.next)
  }

  function Toks(ts: seq<Token>): (r: seq<Tok>)
    ensures |r| == |ts| && forall i :: 0 <= i < |ts| ==> r[i] == ts[i].tok
  {
    seq(|ts|, i requires 0 <= i < |ts| => ts[i].tok)
  }
}
