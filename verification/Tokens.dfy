/** Tokens, and the lexemes each kind of token can have. */
module Tokens {
  datatype TokenType =
    | EOF_TOKEN | ERROR_TOKEN
    | SYMBOL | INTEGER | FLOAT | BOOL
    | ADD | MUL | LAND | LOR | NOT | ASSIGN | CMP | CMP_EQ
    | FUNC | IF | ELSE | DO | WHILE | RETURN | IO_PRINT
    | PL | PR | BL | BR | COMMA | SEMICOLON | COLON
    | TYPE

  /** A token without its position. */
  datatype Tok = Tok(ty: TokenType, lexeme: string)

  const END_OF_FILE := Tok(EOF_TOKEN, "")

  function KeywordType(lexeme: string): TokenType {
    if lexeme == "func" then FUNC
    else if lexeme == "if" then IF
    else if lexeme == "else" then ELSE
    else if lexeme == "do" then DO
    else if lexeme == "while" then WHILE
    else if lexeme == "return" then RETURN
    else if lexeme == "int" || lexeme == "float" || lexeme == "bool" then TYPE
    else if lexeme == "False" || lexeme == "True" then BOOL
    else if lexeme == "print" then IO_PRINT
    else SYMBOL
  }

  predicate IsSpace(c: char) { c == ' ' || '\t' <= c <= '\r' }
  predicate IsDigit(c: char) { '0' <= c <= '9' }
  predicate IsAlpha(c: char) { 'a' <= c <= 'z' || 'A' <= c <= 'Z' }
  predicate IsAlnum(c: char) { IsAlpha(c) || IsDigit(c) }

  predicate IsWord(s: string) {
    s != [] && IsAlpha(s[0]) && forall i :: 0 <= i < |s| ==> IsAlnum(s[i])
  }

  predicate AllDigits(s: string) {
    s != [] && forall i :: 0 <= i < |s| ==> IsDigit(s[i])
  }

  /** A number is a digit followed by digits and dots; any dot makes it a float. */
  predicate IsNumeral(s: string) {
    s != [] && IsDigit(s[0]) && forall i :: 0 <= i < |s| ==> IsDigit(s[i]) || s[i] == '.'
  }

  /** The tokens the lexer can produce, errors and the end of the file aside. */
  predicate Proper(t: Tok) {
    match t.ty
    case EOF_TOKEN => false
    case ERROR_TOKEN => false
    case SYMBOL => IsWord(t.lexeme) && KeywordType(t.lexeme) == SYMBOL
    case INTEGER => AllDigits(t.lexeme)
    case FLOAT => IsNumeral(t.lexeme) && '.' in t.lexeme
    case BOOL => t.lexeme == "True" || t.lexeme == "False"
    case ADD => t.lexeme == "+" || t.lexeme == "-"
    case MUL => t.lexeme == "*" || t.lexeme == "/"
    case LAND => t.lexeme == "&&"
    case LOR => t.lexeme == "||"
    case NOT => t.lexeme == "!"
    case ASSIGN => t.lexeme == "="
    case CMP => t.lexeme == ">" || t.lexeme == "<" || t.lexeme == ">=" || t.lexeme == "<="
    case CMP_EQ => t.lexeme == "==" || t.lexeme == "!="
    case FUNC => t.lexeme == "func"
    case IF => t.lexeme == "if"
    case ELSE => t.lexeme == "else"
    case DO => t.lexeme == "do"
    case WHILE => t.lexeme == "while"
    case RETURN => t.lexeme == "return"
    case IO_PRINT => t.lexeme == "print"
    case PL => t.lexeme == "("
    case PR => t.lexeme == ")"
    case BL => t.lexeme == "{"
    case BR => t.lexeme == "}"
    case COMMA => t.lexeme == ","
    case SEMICOLON => t.lexeme == ";"
    case COLON => t.lexeme == ":"
    case TYPE => t.lexeme == "int" || t.lexeme == "float" || t.lexeme == "bool"
  }

  /** What the lexer can produce before the end of the file. */
  predicate Lexed(t: Tok) { t.ty == ERROR_TOKEN || Proper(t) }

  predicate AllLexed(ts: seq<Tok>) {
    forall i :: 0 <= i < |ts| ==> Lexed(ts[i])
  }

  predicate AllProper(ts: seq<Tok>) {
    forall i :: 0 <= i < |ts| ==> Proper(ts[i])
  }
}
