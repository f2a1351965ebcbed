/** The grammar, as derivation trees: which tokens a tree stands for, which trees are well formed,
    and which syntax tree a well-typed derivation denotes.

    The productions are those of the language reference, right-associative and one level per kind
    of operator, with three additions the parser makes: a semicolon may follow a simple statement,
    the parentheses of a function without parameters may be left out, and a prefix operator may be
    applied to a prefix expression.

    Two more productions are reported with a message that is no error: a list of parameters or of
    arguments that is not closed.  A derivation without them is `Neat`. */
module Grammar {
  import opened Wrappers
  import opened Ast
  import opened Parsing
  import T = Tokens

  /** How the arguments of a call end.  Where the closing parenthesis is missing the token in its
      place is skipped, if there is one. */
  datatype Closing = Closed | Skipped(tok: T.Tok) | Ended

  /** How parameters end.  Where the closing parenthesis is missing, a type without a name may
      still be there. */
  datatype Ending = Shut | Missing | Nameless(ty: string)

  datatype CExpr =
    | CVar(name: string)
    | CBool(lexeme: string)
    | CInt(lexeme: string)
    | CFloat(lexeme: string)
    | CParen(inner: CExpr)
    | CCall(callee: string, args: seq<CExpr>, closing: Closing)
    | CUnary(op: T.Tok, sub: CExpr)
    | CBinary(level: nat, lexeme: string, lhs: CExpr, rhs: CExpr)

  /** `semi`: is there a semicolon after it? */
  datatype CStmt =
    | CDeclare(ty: string, name: string, rhs: CExpr, semi: bool)
    | CAssign(name: string, rhs: CExpr, semi: bool)
    | CCallStmt(callee: string, args: seq<CExpr>, closing: Closing, semi: bool)
    | CPrint(e: CExpr, semi: bool)
    | CReturn(e: CExpr, semi: bool)
    | CBlock(stmts: seq<CStmt>)
    | CIf(cond: CExpr, thn: CStmt, els: Option<CStmt>)
    | CWhile(cond: CExpr, body: CStmt)
    | CDoWhile(body: CStmt, cond: CExpr)

  datatype CParam = CParam(ty: string, name: string)

  /** `parens`: are there parentheses; `comma`: is there a comma after the last parameter? */
  datatype CFunction = CFunction(
    name: string, parens: bool, params: seq<CParam>, comma: bool, ending: Ending, ty: string, body: CStmt)

  // ----- the tokens of a tree -----

  const OPEN := T.Tok(T.PL, "(")
  const CLOSE := T.Tok(T.PR, ")")
  const COMMA_TOK := T.Tok(T.COMMA, ",")

  function Yield(c: CExpr): seq<T.Tok>
    decreases c
  {
    match c
    case CVar(x) => [T.Tok(T.SYMBOL, x)]
    case CBool(l) => [T.Tok(T.BOOL, l)]
    case CInt(l) => [T.Tok(T.INTEGER, l)]
    case CFloat(l) => [T.Tok(T.FLOAT, l)]
    case CParen(e) => [OPEN] + Yield(e) + [CLOSE]
    case CCall(f, args, z) => [T.Tok(T.SYMBOL, f), OPEN] + YieldArgs(args) + YieldClosing(z)
    case CUnary(op, e) => [op] + Yield(e)
    case CBinary(k, l, a, b) => Yield(a) + [T.Tok(if k < 6 then LevelToken(k) else T.ERROR_TOKEN, l)] + Yield(b)
  }

  function YieldClosing(z: Closing): seq<T.Tok> {
    match z
    case Closed => [CLOSE]
    case Skipped(t) => [t]
    case Ended => []
  }

  function YieldArgs(args: seq<CExpr>): seq<T.Tok>
    decreases args
  {
    if args == [] then []
    else if |args| == 1 then Yield(args[0])
    else Yield(args[0]) + [COMMA_TOK] + YieldArgs(args[1..])
  }

  function YieldSemi(semi: bool): seq<T.Tok> {
    if semi then [T.Tok(T.SEMICOLON, ";")] else []
  }

  function YieldStmt(c: CStmt): seq<T.Tok>
    decreases c
  {
    match c
    case CDeclare(t, x, e, semi) =>
      [T.Tok(T.TYPE, t), T.Tok(T.SYMBOL, x), T.Tok(T.ASSIGN, "=")] + Yield(e) + YieldSemi(semi)
    case CAssign(x, e, semi) => [T.Tok(T.SYMBOL, x), T.Tok(T.ASSIGN, "=")] + Yield(e) + YieldSemi(semi)
    case CCallStmt(f, args, z, semi) => Yield(CCall(f, args, z)) + YieldSemi(semi)
    case CPrint(e, semi) => [T.Tok(T.IO_PRINT, "print")] + Yield(e) + YieldSemi(semi)
    case CReturn(e, semi) => [T.Tok(T.RETURN, "return")] + Yield(e) + YieldSemi(semi)
    case CBlock(ss) => [T.Tok(T.BL, "{")] + YieldStmts(ss) + [T.Tok(T.BR, "}")]
    case CIf(e, a, b) => [T.Tok(T.IF, "if")] + Yield(e) + YieldStmt(a) + YieldElse(b)
    case CWhile(e, a) => [T.Tok(T.WHILE, "while")] + Yield(e) + YieldStmt(a)
    case CDoWhile(a, e) => [T.Tok(T.DO, "do")] + YieldStmt(a) + [T.Tok(T.WHILE, "while")] + Yield(e)
  }

  function YieldElse(b: Option<CStmt>): seq<T.Tok>
    decreases b
  {
    match b
    case None => []
    case Some(s) => [T.Tok(T.ELSE, "else")] + YieldStmt(s)
  }

  function YieldStmts(ss: seq<CStmt>): seq<T.Tok>
    decreases ss
  {
    if ss == [] then [] else YieldStmt(ss[0]) + YieldStmts(ss[1..])
  }

  function YieldParams(ps: seq<CParam>, comma: bool): seq<T.Tok> {
    if ps == [] then []
    else
      [T.Tok(T.TYPE, ps[0].ty), T.Tok(T.SYMBOL, ps[0].name)]
      + (if |ps| > 1 || comma then [COMMA_TOK] else []) + YieldParams(ps[1..], comma)
  }

  function YieldEnding(z: Ending): seq<T.Tok> {
    match z
    case Shut => [CLOSE]
    case Missing => []
    case Nameless(ty) => [T.Tok(T.TYPE, ty)]
  }

  function YieldParens(parens: bool, ps: seq<CParam>, comma: bool, z: Ending): seq<T.Tok> {
    if parens then [OPEN] + YieldParams(ps, comma) + YieldEnding(z) else []
  }

  function YieldSignature(c: CFunction): seq<T.Tok> { YieldParens(c.parens, c.params, c.comma, c.ending) }

  function YieldFunction(c: CFunction): seq<T.Tok> {
    [T.Tok(T.FUNC, "func"), T.Tok(T.SYMBOL, c.name)] + YieldSignature(c)
    + [T.Tok(T.COLON, ":"), T.Tok(T.TYPE, c.ty)] + YieldStmt(c.body)
  }

  function YieldFile(cs: seq<CFunction>): seq<T.Tok> {
    if cs == [] then [] else YieldFunction(cs[0]) + YieldFile(cs[1..])
  }

  // ----- well-formed trees -----

  /** Is the last token a name, which a parenthesis would make a call? */
  predicate EndsInName(c: CExpr) {
    match c
    case CVar(_) => true
    case CUnary(_, e) => EndsInName(e)
    case CBinary(_, _, _, b) => EndsInName(b)
    case _ => false
  }

  /** Does the end of the file end it?  Nothing can come after it then. */
  predicate EndsOpen(c: CExpr) {
    match c
    case CCall(_, _, z) => z.Ended?
    case CUnary(_, e) => EndsOpen(e)
    case CBinary(_, _, _, b) => EndsOpen(b)
    case _ => false
  }

  /** Would the expression, at this level, go on with such a token? */
  predicate GoesOn(c: CExpr, level: nat, t: T.TokenType) {
    (EndsInName(c) && t == T.PL) || exists j :: level <= j < 6 && t == LevelToken(j)
  }

  /** Can the arguments end so? */
  predicate MayClose(args: seq<CExpr>, z: Closing) {
    && (forall i :: 0 <= i < |args| && EndsOpen(args[i]) ==> i == |args| - 1 && z.Ended?)
    && (!z.Closed? ==> args != [])
    && (z.Skipped? ==>
          z.tok.ty != T.PR && z.tok.ty != T.COMMA && !GoesOn(args[|args| - 1], 0, z.tok.ty))
  }

  /** Can the tree be derived from the nonterminal of this level? */
  predicate AtLevel(c: CExpr, level: nat)
    decreases c
  {
    match c
    case CParen(e) => AtLevel(e, 0) && !EndsOpen(e)
    case CCall(_, args, z) => (forall i :: 0 <= i < |args| ==> AtLevel(args[i], 0)) && MayClose(args, z)
    case CUnary(op, e) => level <= 6 && (op.ty == T.ADD || op.ty == T.NOT) && AtLevel(e, 6)
    case CBinary(k, _, a, b) => level <= k < 6 && AtLevel(a, k + 1) && AtLevel(b, k) && !EndsOpen(a)
    case _ => true
  }

  /** Would an `else` after the statement be taken for its own? */
  predicate OpenIf(c: CStmt)
    decreases c
  {
    match c
    case CIf(_, a, b) => b.None? || OpenIf(b.value)
    case CWhile(_, a) => OpenIf(a)
    case _ => false
  }

  predicate StmtEndsOpen(c: CStmt)
    decreases c
  {
    match c
    case CDeclare(_, _, e, _) => EndsOpen(e)
    case CAssign(_, e, _) => EndsOpen(e)
    case CCallStmt(_, _, z, _) => z.Ended?
    case CPrint(e, _) => EndsOpen(e)
    case CReturn(e, _) => EndsOpen(e)
    case CBlock(_) => false
    case CIf(_, a, b) => if b.Some? then StmtEndsOpen(b.value) else StmtEndsOpen(a)
    case CWhile(_, a) => StmtEndsOpen(a)
    case CDoWhile(_, e) => EndsOpen(e)
  }

  /** An expression, and perhaps a semicolon after it. */
  predicate Simple(c: CExpr, semi: bool) {
    AtLevel(c, 0) && (semi ==> !EndsOpen(c))
  }

  predicate WellFormed(c: CStmt)
    decreases c
  {
    match c
    case CDeclare(_, _, e, semi) => Simple(e, semi)
    case CAssign(_, e, semi) => Simple(e, semi)
    case CCallStmt(f, args, z, semi) => Simple(CCall(f, args, z), semi)
    case CPrint(e, semi) => Simple(e, semi)
    case CReturn(e, semi) => Simple(e, semi)
    case CBlock(ss) => forall i :: 0 <= i < |ss| ==> WellFormed(ss[i]) && !StmtEndsOpen(ss[i])
    case CIf(e, a, b) =>
      && Simple(e, true) && WellFormed(a)
      && (b.Some? ==> WellFormed(b.value) && !OpenIf(a) && !StmtEndsOpen(a))
    case CWhile(e, a) => Simple(e, true) && WellFormed(a)
    case CDoWhile(a, e) => WellFormed(a) && !StmtEndsOpen(a) && AtLevel(e, 0)
  }

  predicate WellFormedFunction(c: CFunction) {
    && WellFormed(c.body)
    && (c.params != [] || !c.ending.Shut? ==> c.parens) && (c.comma ==> c.params != [])
    && (c.ending.Nameless? && c.params != [] ==> c.comma)
  }

  predicate WellFormedFile(cs: seq<CFunction>) {
    && (forall i :: 0 <= i < |cs| ==> WellFormedFunction(cs[i]))
    && forall i :: 0 <= i < |cs| - 1 ==> !StmtEndsOpen(cs[i].body)
  }

  // ----- derivations without a message -----

  predicate Neat(c: CExpr)
    decreases c
  {
    match c
    case CParen(e) => Neat(e)
    case CCall(_, args, z) => z.Closed? && NeatArgs(args)
    case CUnary(_, e) => Neat(e)
    case CBinary(_, _, a, b) => Neat(a) && Neat(b)
    case _ => true
  }

  predicate NeatArgs(args: seq<CExpr>)
    decreases args
  {
    forall i :: 0 <= i < |args| ==> Neat(args[i])
  }

  predicate NeatStmt(c: CStmt)
    decreases c
  {
    match c
    case CDeclare(_, _, e, _) => Neat(e)
    case CAssign(_, e, _) => Neat(e)
    case CCallStmt(_, args, z, _) => z.Closed? && NeatArgs(args)
    case CPrint(e, _) => Neat(e)
    case CReturn(e, _) => Neat(e)
    case CBlock(ss) => NeatStmts(ss)
    case CIf(e, a, b) => Neat(e) && NeatStmt(a) && (b.Some? ==> NeatStmt(b.value))
    case CWhile(e, a) => Neat(e) && NeatStmt(a)
    case CDoWhile(a, e) => NeatStmt(a) && Neat(e)
  }

  predicate NeatStmts(ss: seq<CStmt>)
    decreases ss
  {
    forall i :: 0 <= i < |ss| ==> NeatStmt(ss[i])
  }

  predicate NeatFunction(c: CFunction) { c.ending.Shut? && NeatStmt(c.body) }

  predicate NeatFile(cs: seq<CFunction>) {
    forall i :: 0 <= i < |cs| ==> NeatFunction(cs[i])
  }

  // ----- the syntax tree of a derivation -----

  /** The expression a derivation denotes, if all its names are known and its operands fit. */
  function Denote(k: FloatReader, scope: Table, funcs: Table, c: CExpr): Option<Expr>
    decreases c
  {
    match c
    case CVar(x) =>
      (match Found(scope, x)
       case None => None
       case Some(t) => Some(Var(x, t)))
    case CBool(l) => Some(BoolLit(l == "True"))
    case CInt(l) =>
      (match ReadInt(l)
       case None => None
       case Some(n) => Some(IntLit(n)))
    case CFloat(l) =>
      (match k(l)
       case None => None
       case Some(f) => Some(FloatLit(f)))
    case CParen(e) => Denote(k, scope, funcs, e)
    case CCall(f, args, _) =>
      (match (Found(funcs, f), DenoteArgs(k, scope, funcs, args))
       case (Some(t), Some(es)) => Some(Call(f, es, t))
       case (_, _) => None)
    case CUnary(op, e) =>
      (match Denote(k, scope, funcs, e)
       case None => None
       case Some(a) => if UnaryFits(op.ty, a.Type()) then Some(Unary(UnaryOperator(op.lexeme), a)) else None)
    case CBinary(level, l, a, b) =>
      (match (Denote(k, scope, funcs, a), Denote(k, scope, funcs, b))
       case (Some(x), Some(y)) =>
         if OperandsFit(level, x.Type(), y.Type()) then
           Some(Binary(BinaryType(level, x.Type(), y.Type()), BinaryOperator(l), x, y))
         else None
       case (_, _) => None)
  }

  function DenoteArgs(k: FloatReader, scope: Table, funcs: Table, args: seq<CExpr>): Option<seq<Expr>>
    decreases args
  {
    if args == [] then Some([])
    else
      match (Denote(k, scope, funcs, args[0]), DenoteArgs(k, scope, funcs, args[1..]))
      case (Some(e), Some(es)) => Some([e] + es)
      case (_, _) => None
  }

  /** A statement and the scope after it: a function has one flat scope. */
  datatype Denoted = Denoted(st: Stmt, scope: Table)
  datatype DenotedSeq = DenotedSeq(sts: seq<Stmt>, scope: Table)

  function DenoteStmt(k: FloatReader, scope: Table, funcs: Table, c: CStmt): Option<Denoted>
    decreases c
  {
    match c
    case CDeclare(ty, x, e, _) =>
      (match Denote(k, scope, funcs, e)
       case None => None
       case Some(a) =>
         if x !in scope && Assignable(FromString(ty), a.Type()) then
           Some(Denoted(Assign(x, FromString(ty), a), scope[x := Some(FromString(ty))]))
         else None)
    case CAssign(x, e, _) =>
      (match (Found(scope, x), Denote(k, scope, funcs, e))
       case (Some(t), Some(a)) => if Assignable(t, a.Type()) then Some(Denoted(Assign(x, t, a), scope)) else None
       case (_, _) => None)
    case CCallStmt(f, args, z, _) =>
      (match Denote(k, scope, funcs, CCall(f, args, z))
       case None => None
       case Some(a) => Some(Denoted(CallStmt(a), scope)))
    case CPrint(e, _) =>
      (match Denote(k, scope, funcs, e)
       case None => None
       case Some(a) => Some(Denoted(Print(a), scope)))
    case CReturn(e, _) =>
      (match Denote(k, scope, funcs, e)
       case None => None
       case Some(a) => Some(Denoted(Return(a), scope)))
    case CBlock(ss) =>
      (match DenoteStmts(k, scope, funcs, ss)
       case None => None
       case Some(d) => Some(Denoted(Block(d.sts), d.scope)))
    case CIf(e, a, b) =>
      (match DenoteCondition(k, scope, funcs, e)
       case None => None
       case Some(x) =>
         match DenoteStmt(k, scope, funcs, a)
         case None => None
         case Some(d) =>
           match b
           case None => Some(Denoted(If(x, d.st, None), d.scope))
           case Some(c2) =>
             match DenoteStmt(k, d.scope, funcs, c2)
             case None => None
             case Some(d2) => Some(Denoted(If(x, d.st, Some(d2.st)), d2.scope)))
    case CWhile(e, a) =>
      (match DenoteCondition(k, scope, funcs, e)
       case None => None
       case Some(x) =>
         match DenoteStmt(k, scope, funcs, a)
         case None => None
         case Some(d) => Some(Denoted(While(x, d.st), d.scope)))
    case CDoWhile(a, e) =>
      (match DenoteStmt(k, scope, funcs, a)
       case None => None
       case Some(d) =>
         match DenoteCondition(k, d.scope, funcs, e)
         case None => None
         case Some(x) => Some(Denoted(DoWhile(d.st, x), d.scope)))
  }

  function DenoteCondition(k: FloatReader, scope: Table, funcs: Table, c: CExpr): Option<Expr> {
    match Denote(k, scope, funcs, c)
    case None => None
    case Some(e) => if e.Type() == BOOL then Some(e) else None
  }

  function DenoteStmts(k: FloatReader, scope: Table, funcs: Table, ss: seq<CStmt>): Option<DenotedSeq>
    decreases ss
  {
    if ss == [] then Some(DenotedSeq([], scope))
    else
      match DenoteStmt(k, scope, funcs, ss[0])
      case None => None
      case Some(d) =>
        match DenoteStmts(k, d.scope, funcs, ss[1..])
        case None => None
        case Some(ds) => Some(DenotedSeq([d.st] + ds.sts, ds.scope))
  }

  function DenoteParams(ps: seq<CParam>): seq<Param> {
    if ps == [] then [] else [Param(ps[0].name, FromString(ps[0].ty))] + DenoteParams(ps[1..])
  }

  datatype DenotedFile = DenotedFile(p: Program, funcs: Table)

  /** A function is known in its own body and after it. */
  function DenoteFunction(k: FloatReader, funcs: Table, c: CFunction): Option<FunctionDef> {
    var t := FromString(c.ty);
    if t == UNDEFINED then None
    else
      match DenoteStmt(k, ParamScope(DenoteParams(c.params)), Insert(funcs, c.name, t), c.body)
      case None => None
      case Some(d) => Some(FunctionDef(c.name, DenoteParams(c.params), d.st, t))
  }

  function DenoteFile(k: FloatReader, funcs: Table, cs: seq<CFunction>): Option<Program>
    decreases cs
  {
    if cs == [] then Some([])
    else
      match DenoteFunction(k, funcs, cs[0])
      case None => None
      case Some(d) =>
        match DenoteFile(k, Insert(funcs, cs[0].name, FromString(cs[0].ty)), cs[1..])
        case None => None
        case Some(p) => Some([d] + p)
  }
}
