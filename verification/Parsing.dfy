/** The recursive-descent parser as functions on its state.

    This is the specification the methods of `Parser` are proved against.  `rest` holds the
    current token and all that follow; when it is empty the current token is the end of the
    file.  A missing node is `None`.  Looking a name up in one of the two tables enters it with
    no node, as `std::map`'s subscript does. */
module Parsing {
  import opened Wrappers
  import opened Values
  import opened Ast
  import T = Tokens

  /** The type a name or a function was declared with, unless it was only looked up. */
  type Table = map<string, Option<TType>>

  /** `diagnosed` is set by every message that is printed, `isError` only by some. */
  datatype PState = PState(rest: seq<T.Tok>, scope: Table, funcs: Table, isError: bool, diagnosed: bool)

  datatype ExprP = ExprP(e: Option<Expr>, s: PState)
  datatype ArgsP = ArgsP(es: seq<Expr>, s: PState)
  datatype StmtP = StmtP(st: Option<Stmt>, s: PState)
  datatype BlockP = BlockP(sts: Option<seq<Stmt>>, s: PState)
  datatype ParamsP = ParamsP(ps: seq<Param>, s: PState)
  datatype FunctionP = FunctionP(d: Option<FunctionDef>, s: PState)

  datatype Root = Dummy | Vector(p: Program)
  datatype RootP = RootP(root: Root, s: PState)

  /** How a float literal reads: `std::stof`, which may fail. */
  type FloatReader = string -> Option<F32>

  // ----- tokens and messages -----

  function Current(s: PState): T.Tok {
    if s.rest == [] then T.END_OF_FILE else s.rest[0]
  }

  predicate At(s: PState, t: T.TokenType) { Current(s).ty == t }

  function Next(s: PState): (r: PState)
    ensures |r.rest| <= |s.rest| && (s.rest != [] ==> |r.rest| < |s.rest|)
  {
    if s.rest == [] then s else s.(rest := s.rest[1..])
  }

  function NextIf(s: PState, t: T.TokenType): (r: PState)
    ensures |r.rest| <= |s.rest|
  {
    if At(s, t) then Next(s) else s
  }

  /** A message that does not count as an error. */
  function Diagnose(s: PState): PState { s.(diagnosed := true) }

  function Error(s: PState): PState { s.(isError := true, diagnosed := true) }

  function FromString(lexeme: string): TType {
    if lexeme == "int" then INTEGER
    else if lexeme == "float" then FLOAT
    else if lexeme == "bool" then BOOL
    else UNDEFINED
  }

  /** The operators that are looked for at each level of the expression grammar. */
  function LevelToken(level: nat): T.TokenType
    requires level < 6
  {
    match level
    case 0 => T.LOR
    case 1 => T.LAND
    case 2 => T.CMP_EQ
    case 3 => T.CMP
    case 4 => T.ADD
    case _ => T.MUL
  }

  function BinaryOperator(lexeme: string): BinaryOp {
    if lexeme == "+" then Add
    else if lexeme == "-" then Sub
    else if lexeme == "*" then Mul
    else if lexeme == "/" then Div
    else if lexeme == "==" then Eq
    else if lexeme == "!=" then Ne
    else if lexeme == ">" then Gt
    else if lexeme == "<" then Lt
    else if lexeme == ">=" then Ge
    else if lexeme == "<=" then Le
    else if lexeme == "&&" then And
    else if lexeme == "||" then Or
    else Add
  }

  function UnaryOperator(lexeme: string): UnaryOp {
    if lexeme == "-" then Neg else if lexeme == "!" then Not else Pos
  }

  /** The check of the operand types at a level: both bool, none bool, or (at `==`) anything. */
  predicate OperandsFit(level: nat, l: TType, r: TType) {
    if level <= 1 then l == BOOL && r == BOOL
    else if level == 2 then true
    else l != BOOL && r != BOOL
  }

  function BinaryType(level: nat, l: TType, r: TType): TType {
    if level <= 3 then BOOL
    else if l == FLOAT || r == FLOAT then FLOAT
    else INTEGER
  }

  predicate UnaryFits(t: T.TokenType, operand: TType) {
    if t.NOT? then operand == BOOL else operand != BOOL
  }

  function Digits(s: string): nat {
    if s == [] then 0 else 10 * Digits(s[..|s| - 1]) + (s[|s| - 1] as int - '0' as int) % 10
  }

  /** `std::stoi` on a digit string: fails if the number does not fit. */
  function ReadInt(s: string): Option<I32> {
    if T.AllDigits(s) && Digits(s) < TWO_31 then Some(Digits(s)) else None
  }

  // ----- expressions -----

  /** Parsing consumes tokens, at least one if it succeeds, and never takes back a message. */
  ghost predicate Advances(s: PState, r: PState, some: bool) {
    && |r.rest| <= |s.rest| && (some ==> |r.rest| < |s.rest|)
    && (s.isError ==> r.isError) && (s.diagnosed ==> r.diagnosed)
    && ((s.isError ==> s.diagnosed) ==> r.isError ==> r.diagnosed)
  }

  /** Skips the current token, whatever it is, and parses an expression after it. */
  function ParseExpression(k: FloatReader, s: PState): (r: ExprP)
    ensures Advances(s, r.s, r.e.Some?)
    decreases |s.rest|, 13
  {
    var s1 := Next(s);
    if At(s1, T.EOF_TOKEN) then ExprP(None, Error(s1)) else ParseLevel(k, s1, 0)
  }

  /** Levels 0 to 5 are the binary operators, loosest first; 6 is `unary` and 7 `factor`. */
  function ParseLevel(k: FloatReader, s: PState, level: nat): (r: ExprP)
    requires level <= 7
    ensures Advances(s, r.s, r.e.Some?)
    decreases |s.rest|, 12 - level
  {
    if level == 6 then ParseUnary(k, s)
    else if level == 7 then ParseFactor(k, s)
    else
      var l := ParseLevel(k, s, level + 1);
      if l.e.None? then l
      else if !At(l.s, LevelToken(level)) then l
      else
        var op := Current(l.s).lexeme;
        Combine(level, op, l.e.value, ParseLevel(k, Next(l.s), level))
  }

  /** The two sides of an operator, if the right one was found and they fit. */
  function Combine(level: nat, op: string, l: Expr, r: ExprP): ExprP {
    if r.e.None? then ExprP(None, Error(r.s))
    else if !OperandsFit(level, l.Type(), r.e.value.Type()) then ExprP(None, Error(r.s))
    else
      ExprP(Some(Binary(BinaryType(level, l.Type(), r.e.value.Type()), BinaryOperator(op), l, r.e.value)), r.s)
  }

  function ParseUnary(k: FloatReader, s: PState): (r: ExprP)
    ensures Advances(s, r.s, r.e.Some?)
    decreases |s.rest|, 3
  {
    if At(s, T.ADD) || At(s, T.NOT) then
      var t := Current(s);
      var r := ParseUnary(k, Next(s));
      if r.e.None? then ExprP(None, Error(r.s))
      else if !UnaryFits(t.ty, r.e.value.Type()) then ExprP(None, Error(r.s))
      else ExprP(Some(Unary(UnaryOperator(t.lexeme), r.e.value)), r.s)
    else ParseFactor(k, s)
  }

  function ParseFactor(k: FloatReader, s: PState): (r: ExprP)
    ensures Advances(s, r.s, r.e.Some?)
    decreases |s.rest|, 2
  {
    if At(s, T.PL) then
      var r := ParseLevel(k, Next(s), 0);
      if !At(r.s, T.PR) then ExprP(None, Diagnose(r.s)) else ExprP(r.e, Next(r.s))
    else if At(s, T.SYMBOL) then
      if At(Next(s), T.PL) then ParseFuncall(k, s) else ParseVar(s)
    else ParseConstant(k, s)
  }

  function ParseConstant(k: FloatReader, s: PState): (r: ExprP)
    ensures Advances(s, r.s, r.e.Some?)
  {
    match Current(s).ty
    case BOOL => ExprP(Some(BoolLit(Current(s).lexeme == "True")), Next(s))
    case INTEGER =>
      (match ReadInt(Current(s).lexeme)
       case Some(n) => ExprP(Some(IntLit(n)), Next(s))
       case None => ExprP(None, Error(Next(s))))
    case FLOAT =>
      (match k(Current(s).lexeme)
       case Some(f) => ExprP(Some(FloatLit(f)), Next(s))
       case None => ExprP(None, Error(Next(s))))
    case _ => ExprP(None, s)
  }

  function Found(t: Table, name: string): Option<TType> {
    if name in t then t[name] else None
  }

  /** The table after a look-up. */
  function Touch(t: Table, name: string): Table {
    if name in t then t else t[name := None]
  }

  function ParseVar(s: PState): (r: ExprP)
    requires s.rest != []
    ensures Advances(s, r.s, true)
  {
    var name := Current(s).lexeme;
    var s1 := Next(s);
    var s2 := s1.(scope := Touch(s1.scope, name));
    match Found(s1.scope, name)
    case Some(t) => ExprP(Some(Var(name, t)), s2)
    case None => ExprP(Some(Var(name, UNDEFINED)), Error(s2))
  }

  function ParseFuncall(k: FloatReader, s: PState): (r: ExprP)
    requires s.rest != []
    ensures Advances(s, r.s, r.e.Some?)
    decreases |s.rest|, 1
  {
    var name := Current(s).lexeme;
    var s1 := s.(funcs := Touch(s.funcs, name));
    match Found(s.funcs, name)
    case None => ExprP(None, Error(s1))
    case Some(t) =>
      var a := ParseArgs(k, s1);
      ExprP(Some(Call(name, a.es, t)), Next(a.s))
  }

  /** From the callee's name to the closing parenthesis, which is left as the current token. */
  function ParseArgs(k: FloatReader, s: PState): (r: ArgsP)
    requires s.rest != []
    ensures Advances(s, r.s, true)
    decreases |s.rest|, 0
  {
    var s1 := Next(s);
    if At(Next(s1), T.PR) then ArgsP([], Next(s1)) else ParseArgsLoop(k, s1, [])
  }

  function ParseArgsLoop(k: FloatReader, s: PState, es: seq<Expr>): (r: ArgsP)
    ensures Advances(s, r.s, false)
    decreases |s.rest|, 14
  {
    if At(s, T.PR) then ArgsP(es, s)
    else
      var r := ParseExpression(k, s);
      if r.e.None? then ArgsP(es, Error(r.s))
      else if At(r.s, T.COMMA) then ParseArgsLoop(k, r.s, es + [r.e.value])
      else if At(r.s, T.PR) then ArgsP(es + [r.e.value], r.s)
      else ArgsP(es + [r.e.value], Diagnose(r.s))
  }

  // ----- statements -----

  function ParseStatement(k: FloatReader, s: PState): (r: StmtP)
    ensures Advances(s, r.s, r.st.Some?)
    decreases |s.rest|, 11
  {
    match Current(s).ty
    case EOF_TOKEN => StmtP(None, Error(s))
    case BL => ParseBlock(k, s)
    case IF => ParseIf(k, s)
    case WHILE => ParseWhile(k, s)
    case DO => ParseDoWhile(k, s)
    case TYPE => Semicolon(ParseDeclaration(k, s))
    case SYMBOL =>
      if At(Next(s), T.PL) then Semicolon(ParseCallStatement(k, s)) else Semicolon(ParseAssignment(k, s))
    case IO_PRINT => Semicolon(ParsePrint(k, s))
    case RETURN => Semicolon(ParseReturn(k, s))
    case _ => StmtP(None, s)
  }

  /** An optional semicolon, which is skipped even after a statement that failed. */
  function Semicolon(r: StmtP): (t: StmtP)
    ensures Advances(r.s, t.s, false)
  {
    StmtP(r.st, NextIf(r.s, T.SEMICOLON))
  }

  function ParseCallStatement(k: FloatReader, s: PState): (r: StmtP)
    requires s.rest != []
    ensures Advances(s, r.s, r.st.Some?)
  {
    var r := ParseFuncall(k, s);
    StmtP(if r.e.Some? then Some(CallStmt(r.e.value)) else None, r.s)
  }

  function ParseReturn(k: FloatReader, s: PState): (r: StmtP)
    ensures Advances(s, r.s, r.st.Some?)
  {
    var r := ParseExpression(k, s);
    if r.e.None? then StmtP(None, Error(r.s)) else StmtP(Some(Return(r.e.value)), r.s)
  }

  function ParsePrint(k: FloatReader, s: PState): (r: StmtP)
    ensures Advances(s, r.s, r.st.Some?)
  {
    var r := ParseExpression(k, s);
    if r.e.None? then StmtP(None, Error(r.s)) else StmtP(Some(Print(r.e.value)), r.s)
  }

  /** A condition: its failure is silent here, a condition that is not a bool is an error. */
  function ParseCondition(k: FloatReader, s: PState): (r: ExprP)
    ensures Advances(s, r.s, r.e.Some?)
  {
    var r := ParseExpression(k, s);
    if r.e.Some? && r.e.value.Type() != BOOL then ExprP(None, Error(r.s)) else r
  }

  function ParseIf(k: FloatReader, s: PState): (r: StmtP)
    ensures Advances(s, r.s, r.st.Some?)
    decreases |s.rest|, 10
  {
    var c := ParseCondition(k, s);
    if c.e.None? then StmtP(None, c.s)
    else
      var a := ParseStatement(k, c.s);
      if a.st.None? then a
      else if At(a.s, T.ELSE) then
        var b := ParseStatement(k, Next(a.s));
        if b.st.None? then b else StmtP(Some(If(c.e.value, a.st.value, Some(b.st.value))), b.s)
      else StmtP(Some(If(c.e.value, a.st.value, None)), a.s)
  }

  function ParseWhile(k: FloatReader, s: PState): (r: StmtP)
    ensures Advances(s, r.s, r.st.Some?)
    decreases |s.rest|, 10
  {
    var c := ParseCondition(k, s);
    if c.e.None? then StmtP(None, c.s)
    else
      var b := ParseStatement(k, c.s);
      if b.st.None? then b else StmtP(Some(While(c.e.value, b.st.value)), b.s)
  }

  function ParseDoWhile(k: FloatReader, s: PState): (r: StmtP)
    requires s.rest != []
    ensures Advances(s, r.s, r.st.Some?)
    decreases |s.rest|, 10
  {
    var b := ParseStatement(k, Next(s));
    if b.st.None? then b
    else if !At(b.s, T.WHILE) then StmtP(None, Diagnose(b.s))
    else
      var c := ParseCondition(k, b.s);
      if c.e.None? then StmtP(None, c.s) else StmtP(Some(DoWhile(b.st.value, c.e.value)), c.s)
  }

  function ParseBlock(k: FloatReader, s: PState): (r: StmtP)
    requires s.rest != []
    ensures Advances(s, r.s, r.st.Some?)
    decreases |s.rest|, 10
  {
    var b := ParseStatements(k, Next(s), []);
    if b.sts.None? then StmtP(None, b.s) else StmtP(Some(Block(b.sts.value)), Next(b.s))
  }

  /** Up to a closing brace, which is left as the current token. */
  function ParseStatements(k: FloatReader, s: PState, sts: seq<Stmt>): (r: BlockP)
    ensures Advances(s, r.s, false)
    ensures r.sts.Some? ==> At(r.s, T.BR)
    decreases |s.rest|, 12
  {
    if At(s, T.BR) then BlockP(Some(sts), s)
    else if At(s, T.EOF_TOKEN) then BlockP(None, Diagnose(s))
    else
      var r := ParseStatement(k, s);
      if r.st.None? then BlockP(None, r.s) else ParseStatements(k, r.s, sts + [r.st.value])
  }

  predicate Assignable(declared: TType, given: TType) {
    declared == BOOL <==> given == BOOL
  }

  function ParseAssignment(k: FloatReader, s: PState): (r: StmtP)
    ensures Advances(s, r.s, r.st.Some?)
  {
    var name := Current(s).lexeme;
    var s1 := s.(scope := Touch(s.scope, name));
    match Found(s.scope, name)
    case None => StmtP(None, Error(s1))
    case Some(t) =>
      var s2 := Next(s1);
      if !At(s2, T.ASSIGN) then StmtP(None, Diagnose(s2))
      else
        var r := ParseExpression(k, s2);
        if r.e.None? then StmtP(None, Error(r.s))
        else if !Assignable(t, r.e.value.Type()) then StmtP(None, Error(r.s))
        else StmtP(Some(Assign(name, t, r.e.value)), r.s)
  }

  /** `std::map::insert`: an entry that is there already stays. */
  function Insert(t: Table, name: string, ty: TType): Table {
    if name in t then t else t[name := Some(ty)]
  }

  function ParseDeclaration(k: FloatReader, s: PState): (r: StmtP)
    ensures Advances(s, r.s, r.st.Some?)
  {
    var t := FromString(Current(s).lexeme);
    var s1 := Next(s);
    if !At(s1, T.SYMBOL) then StmtP(None, Diagnose(s1))
    else
      var name := Current(s1).lexeme;
      if name in s1.scope then StmtP(None, Error(s1))
      else
        var s2 := Next(s1);
        if !At(s2, T.ASSIGN) then StmtP(None, Diagnose(s2))
        else
          var r := ParseExpression(k, s2);
          if r.e.None? then StmtP(None, Error(r.s))
          else if !Assignable(t, r.e.value.Type()) then StmtP(None, Error(r.s))
          else StmtP(Some(Assign(name, t, r.e.value)), r.s.(scope := Insert(r.s.scope, name, t)))
  }

  // ----- functions and the file -----

  function ParseParams(s: PState, ps: seq<Param>): (r: ParamsP)
    ensures Advances(s, r.s, false)
    decreases |s.rest|
  {
    if At(s, T.PR) then ParamsP(ps, Next(s))
    else if !At(s, T.TYPE) then ParamsP(ps, Diagnose(s))
    else
      var t := FromString(Current(s).lexeme);
      var s1 := Next(s);
      if !At(s1, T.SYMBOL) then ParamsP(ps, Diagnose(s1))
      else
        var ps1 := ps + [Param(Current(s1).lexeme, t)];
        var s2 := Next(s1);
        if At(s2, T.COMMA) then ParseParams(Next(s2), ps1)
        else if At(s2, T.PR) then ParamsP(ps1, Next(s2))
        else ParamsP(ps1, Diagnose(s2))
  }

  /** The scope that holds the parameters; of two with one name the first counts. */
  function ParamScope(ps: seq<Param>): Table {
    if ps == [] then map[] else Insert(ParamScope(ps[..|ps| - 1]), ps[|ps| - 1].name, ps[|ps| - 1].ty)
  }

  /** The parenthesised parameters, if there are any. */
  function ParseSignature(s: PState): (r: ParamsP)
    ensures Advances(s, r.s, false)
  {
    if At(s, T.PL) then
      var a := ParseParams(Next(s), []);
      a.(s := a.s.(scope := ParamScope(a.ps)))
    else ParamsP([], s)
  }

  function ParseFunction(k: FloatReader, s: PState): (r: FunctionP)
    ensures Advances(s, r.s, r.d.Some?)
  {
    var s1 := Next(s.(scope := map[]));
    if !At(s1, T.SYMBOL) then FunctionP(None, Diagnose(s1))
    else
      var name := Current(s1).lexeme;
      var a := ParseSignature(Next(s1));
      if !At(a.s, T.COLON) then FunctionP(None, Diagnose(a.s))
      else
        var s2 := Next(a.s);
        if !At(s2, T.TYPE) then FunctionP(None, Diagnose(s2))
        else
          var t := FromString(Current(s2).lexeme);
          var s3 := if t == UNDEFINED then Diagnose(Next(s2)) else Next(s2);
          var b := ParseStatement(k, s3.(funcs := Insert(s3.funcs, name, t)));
          if b.st.None? then FunctionP(None, b.s)
          else FunctionP(Some(FunctionDef(name, a.ps, b.st.value, t)), b.s)
  }

  function ParseFile(k: FloatReader, s: PState, p: Program): (r: RootP)
    ensures Advances(s, r.s, false)
    decreases |s.rest|
  {
    if At(s, T.ERROR_TOKEN) then RootP(Dummy, s)
    else if At(s, T.EOF_TOKEN) then RootP(Vector(p), s)
    else if At(s, T.FUNC) then
      var f := ParseFunction(k, s);
      if f.d.None? then RootP(Dummy, f.s) else ParseFile(k, f.s, p + [f.d.value])
    else ParseFile(k, Next(Error(s)), p)
  }

  function StartState(tokens: seq<T.Tok>): PState {
    PState(tokens, map[], map[], false, false)
  }

  function Parse(k: FloatReader, tokens: seq<T.Tok>): RootP {
    ParseFile(k, StartState(tokens), [])
  }
}
