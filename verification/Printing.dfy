/** Writing a program back with no more parentheses than it needs. */
module Printing {
  import opened Wrappers
  import opened Values
  import opened Ast
  import opened Parsing
  import opened Grammar
  import T = Tokens

  // ----- literals -----

  function ShowDigit(d: nat): char
    requires d < 10
  {
    '0' + d as char
  }

  function ShowNat(n: nat): string {
    (if n < 10 then [] else ShowNat(n / 10)) + [ShowDigit(n % 10)]
  }

  lemma {:induction false} ShowNatReads(n: nat)
    ensures T.AllDigits(ShowNat(n)) && Digits(ShowNat(n)) == n
    decreases n
  {
    var s := ShowNat(n);
    assert (s[|s| - 1] as int - '0' as int) == n % 10;
    if n >= 10 {
      ShowNatReads(n / 10);
      assert s[..|s| - 1] == ShowNat(n / 10);
    } else {
      assert s[..0] == [];
    }
  }

  predicate FloatLexeme(l: string) { T.IsNumeral(l) && '.' in l }

  /** There is a literal that reads as `f`. */
  ghost predicate Readable(k: FloatReader, f: F32) {
    exists l :: FloatLexeme(l) && k(l) == Some(f)
  }

  ghost function ShowFloat(k: FloatReader, f: F32): (l: string)
    requires Readable(k, f)
    ensures FloatLexeme(l) && k(l) == Some(f)
  {
    var l :| FloatLexeme(l) && k(l) == Some(f);
    l
  }

  predicate Identifier(x: string) { T.IsWord(x) && T.KeywordType(x) == T.SYMBOL }

  // ----- operators -----

  function LevelOf(op: BinaryOp): nat {
    match op
    case Or => 0
    case And => 1
    case Eq => 2
    case Ne => 2
    case Gt => 3
    case Lt => 3
    case Ge => 3
    case Le => 3
    case Add => 4
    case Sub => 4
    case Mul => 5
    case Div => 5
  }

  function ShowBinary(op: BinaryOp): string {
    match op
    case Or => "||"
    case And => "&&"
    case Eq => "=="
    case Ne => "!="
    case Gt => ">"
    case Lt => "<"
    case Ge => ">="
    case Le => "<="
    case Add => "+"
    case Sub => "-"
    case Mul => "*"
    case Div => "/"
  }

  function UnaryToken(op: UnaryOp): T.Tok {
    match op
    case Pos => T.Tok(T.ADD, "+")
    case Neg => T.Tok(T.ADD, "-")
    case Not => T.Tok(T.NOT, "!")
  }

  function ShowType(t: TType): string {
    match t
    case BOOL => "bool"
    case FLOAT => "float"
    case _ => "int"
  }

  lemma BinaryShown(op: BinaryOp)
    ensures BinaryOperator(ShowBinary(op)) == op && T.Proper(T.Tok(LevelToken(LevelOf(op)), ShowBinary(op)))
  {
  }

  lemma UnaryShown(op: UnaryOp)
    ensures var t := UnaryToken(op);
      UnaryOperator(t.lexeme) == op && T.Proper(t) && (t.ty == T.NOT <==> op == Not) && (t.ty == T.ADD <==> op != Not)
  {
  }

  // ----- which programs the parser can return -----

  ghost predicate PrintableExpr(k: FloatReader, scope: Table, funcs: Table, e: Expr)
    decreases e
  {
    match e
    case Var(x, t) => Identifier(x) && Found(scope, x) == Some(t)
    case BoolLit(_) => true
    case IntLit(n) => 0 <= n
    case FloatLit(f) => Readable(k, f)
    case Unary(op, a) => PrintableExpr(k, scope, funcs, a) && UnaryFits(UnaryToken(op).ty, a.Type())
    case Binary(t, op, a, b) =>
      && PrintableExpr(k, scope, funcs, a) && PrintableExpr(k, scope, funcs, b)
      && OperandsFit(LevelOf(op), a.Type(), b.Type()) && t == BinaryType(LevelOf(op), a.Type(), b.Type())
    case Call(f, args, t) => Identifier(f) && Found(funcs, f) == Some(t) && PrintableArgs(k, scope, funcs, args)
  }

  ghost predicate PrintableArgs(k: FloatReader, scope: Table, funcs: Table, es: seq<Expr>)
    decreases es
  {
    es == [] || (PrintableExpr(k, scope, funcs, es[0]) && PrintableArgs(k, scope, funcs, es[1..]))
  }

  /** The scope after the statement: an assignment to a new name declares it. */
  function ScopeOf(scope: Table, s: Stmt): Table
    decreases s
  {
    match s
    case Assign(x, t, _) => Insert(scope, x, t)
    case Block(ss) => ScopeOfSeq(scope, ss)
    case If(_, a, b) => if b.Some? then ScopeOf(ScopeOf(scope, a), b.value) else ScopeOf(scope, a)
    case While(_, a) => ScopeOf(scope, a)
    case DoWhile(a, _) => ScopeOf(scope, a)
    case _ => scope
  }

  function ScopeOfSeq(scope: Table, ss: seq<Stmt>): Table
    decreases ss
  {
    if ss == [] then scope else ScopeOfSeq(ScopeOf(scope, ss[0]), ss[1..])
  }

  /** Does the statement end in an `if` that an `else` would attach to? */
  predicate EndsInIf(s: Stmt)
    decreases s
  {
    match s
    case If(_, _, b) => b.None? || EndsInIf(b.value)
    case While(_, a) => EndsInIf(a)
    case _ => false
  }

  ghost predicate PrintableStmt(k: FloatReader, scope: Table, funcs: Table, s: Stmt)
    decreases s
  {
    match s
    case Assign(x, t, e) =>
      && Identifier(x) && t != UNDEFINED && PrintableExpr(k, scope, funcs, e) && Assignable(t, e.Type())
      && (x in scope ==> scope[x] == Some(t))
    case Print(e) => PrintableExpr(k, scope, funcs, e)
    case Return(e) => PrintableExpr(k, scope, funcs, e)
    case CallStmt(e) => e.Call? && PrintableExpr(k, scope, funcs, e)
    case Block(ss) => PrintableSeq(k, scope, funcs, ss)
    case If(c, a, b) =>
      && PrintableExpr(k, scope, funcs, c) && c.Type() == BOOL && PrintableStmt(k, scope, funcs, a)
      && (b.Some? ==> PrintableStmt(k, ScopeOf(scope, a), funcs, b.value) && !EndsInIf(a))
    case While(c, a) =>
      PrintableExpr(k, scope, funcs, c) && c.Type() == BOOL && PrintableStmt(k, scope, funcs, a)
    case DoWhile(a, c) =>
      PrintableStmt(k, scope, funcs, a) && PrintableExpr(k, ScopeOf(scope, a), funcs, c) && c.Type() == BOOL
  }

  ghost predicate PrintableSeq(k: FloatReader, scope: Table, funcs: Table, ss: seq<Stmt>)
    decreases ss
  {
    ss == [] || (PrintableStmt(k, scope, funcs, ss[0]) && PrintableSeq(k, ScopeOf(scope, ss[0]), funcs, ss[1..]))
  }

  predicate ProperParams(ps: seq<Param>) {
    forall i :: 0 <= i < |ps| ==> Identifier(ps[i].name) && ps[i].ty != UNDEFINED
  }

  ghost predicate PrintableFunction(k: FloatReader, funcs: Table, d: FunctionDef) {
    && Identifier(d.name) && d.ty != UNDEFINED
    && ProperParams(d.params)
    && PrintableStmt(k, ParamScope(d.params), Insert(funcs, d.name, d.ty), d.body)
  }

  ghost predicate PrintableFile(k: FloatReader, funcs: Table, p: Program)
    decreases p
  {
    p == [] || (PrintableFunction(k, funcs, p[0]) && PrintableFile(k, Insert(funcs, p[0].name, p[0].ty), p[1..]))
  }

  // ----- the derivation of a tree -----

  /** The loosest level the tree can stand at without parentheses. */
  function Tightness(e: Expr): nat {
    match e
    case Binary(_, op, _, _) => LevelOf(op)
    case Unary(_, _) => 6
    case _ => 7
  }

  /** Parenthesised exactly if the level asks for something tighter. */
  ghost function Derive(k: FloatReader, e: Expr, level: nat): CExpr
    decreases e, 1
  {
    if Tightness(e) < level then CParen(DeriveBare(k, e)) else DeriveBare(k, e)
  }

  ghost function DeriveBare(k: FloatReader, e: Expr): CExpr
    decreases e, 0
  {
    match e
    case Var(x, _) => CVar(x)
    case BoolLit(b) => CBool(if b then "True" else "False")
    case IntLit(n) => CInt(if n >= 0 then ShowNat(n) else "")
    case FloatLit(f) => CFloat(if Readable(k, f) then ShowFloat(k, f) else "")
    case Unary(op, a) => CUnary(UnaryToken(op), Derive(k, a, 6))
    case Binary(_, op, a, b) =>
      CBinary(LevelOf(op), ShowBinary(op), Derive(k, a, LevelOf(op) + 1), Derive(k, b, LevelOf(op)))
    case Call(f, args, _) => CCall(f, DeriveArgs(k, args), Closed)
  }

  ghost function DeriveArgs(k: FloatReader, es: seq<Expr>): (cs: seq<CExpr>)
    ensures |cs| == |es|
    decreases es
  {
    if es == [] then [] else [Derive(k, es[0], 0)] + DeriveArgs(k, es[1..])
  }

  ghost function DeriveStmt(k: FloatReader, scope: Table, s: Stmt): CStmt
    decreases s
  {
    match s
    case Assign(x, t, e) =>
      if x in scope then CAssign(x, Derive(k, e, 0), false) else CDeclare(ShowType(t), x, Derive(k, e, 0), false)
    case Print(e) => CPrint(Derive(k, e, 0), false)
    case Return(e) => CReturn(Derive(k, e, 0), false)
    case CallStmt(e) => if e.Call? then CCallStmt(e.callee, DeriveArgs(k, e.args), Closed, false) else CBlock([])
    case Block(ss) => CBlock(DeriveSeq(k, scope, ss))
    case If(c, a, b) =>
      CIf(Derive(k, c, 0), DeriveStmt(k, scope, a),
          if b.Some? then Some(DeriveStmt(k, ScopeOf(scope, a), b.value)) else None)
    case While(c, a) => CWhile(Derive(k, c, 0), DeriveStmt(k, scope, a))
    case DoWhile(a, c) => CDoWhile(DeriveStmt(k, scope, a), Derive(k, c, 0))
  }

  ghost function DeriveSeq(k: FloatReader, scope: Table, ss: seq<Stmt>): seq<CStmt>
    decreases ss
  {
    if ss == [] then [] else [DeriveStmt(k, scope, ss[0])] + DeriveSeq(k, ScopeOf(scope, ss[0]), ss[1..])
  }

  function DeriveParams(ps: seq<Param>): (cs: seq<CParam>)
    ensures |cs| == |ps|
  {
    if ps == [] then [] else [CParam(ShowType(ps[0].ty), ps[0].name)] + DeriveParams(ps[1..])
  }

  ghost function DeriveFunction(k: FloatReader, d: FunctionDef): CFunction {
    CFunction(d.name, d.params != [], DeriveParams(d.params), false, Shut, ShowType(d.ty),
              DeriveStmt(k, ParamScope(d.params), d.body))
  }

  ghost function DeriveFile(k: FloatReader, p: Program): seq<CFunction>
    decreases p
  {
    if p == [] then [] else [DeriveFunction(k, p[0])] + DeriveFile(k, p[1..])
  }

  /** The tokens of the program. */
  ghost function Render(k: FloatReader, p: Program): seq<T.Tok> {
    YieldFile(DeriveFile(k, p))
  }

  // ----- parentheses -----

  /** No pair of parentheses can be left out: what it encloses could not stand there bare. */
  predicate NoneRedundant(c: CExpr, level: nat)
    decreases c
  {
    match c
    case CParen(e) => !AtLevel(e, level) && NoneRedundant(e, 0)
    case CCall(_, args, _) => forall i :: 0 <= i < |args| ==> NoneRedundant(args[i], 0)
    case CUnary(_, e) => NoneRedundant(e, 6)
    case CBinary(l, _, a, b) => NoneRedundant(a, l + 1) && NoneRedundant(b, l)
    case _ => true
  }
}
