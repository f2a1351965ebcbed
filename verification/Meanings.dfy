/** What is written and what it means: the operators by their spelling, literals by their value,
    conversions by what they keep, and how operators group. */
module Meanings {
  import opened Wrappers
  import opened Values
  import opened Ast
  import opened Source
  import opened Parsing
  import opened Grammar
  import opened Completeness
  import opened Rejections
  import opened LexerLaws
  import T = Tokens

  // ----- literals -----

  function Power10(n: nat): nat {
    if n == 0 then 1 else 10 * Power10(n - 1)
  }

  /** The value of a digit string, digit by digit from the left, each with its power of ten. */
  function DecimalValue(s: string): int {
    if s == [] then 0 else (s[0] as int - '0' as int) * Power10(|s| - 1) + DecimalValue(s[1..])
  }

  lemma {:induction false} DecimalSnoc(s: string)
    requires s != []
    ensures DecimalValue(s) == 10 * DecimalValue(s[..|s| - 1]) + (s[|s| - 1] as int - '0' as int)
    decreases s
  {
    var n := |s| - 1;
    if n == 0 {
      assert s[1..] == [] && s[..0] == [];
    } else {
      DecimalSnoc(s[1..]);
      assert s[1..][..n - 1] == s[..n][1..];
      Shifted(s[0] as int - '0' as int, Power10(n - 1));
    }
  }

  lemma Shifted(d: int, p: nat)
    ensures d * (10 * p) == 10 * (d * p)
  {
  }

  lemma {:induction false} DigitsAreDecimal(s: string)
    requires forall i :: 0 <= i < |s| ==> T.IsDigit(s[i])
    ensures Digits(s) == DecimalValue(s)
    decreases s
  {
    if s != [] {
      DecimalSnoc(s);
      DigitsAreDecimal(s[..|s| - 1]);
    }
  }

  /** A literal is read if and only if it is made of digits and its value is below 2^31, and then as
      that value. */
  lemma LiteralReadsExactlyWhen(s: string)
    ensures ReadInt(s).Some? <==> T.AllDigits(s) && DecimalValue(s) < 0x8000_0000
    ensures ReadInt(s).Some? ==> ReadInt(s).value == DecimalValue(s)
  {
    hide Digits, DecimalValue;
    if T.AllDigits(s) {
      DigitsAreDecimal(s);
    }
  }

  // ----- operators -----

  /** The operator spelled `l`, on two ints. */
  function OnInts(ops: FloatOps, l: string, a: I32, b: I32): OpResult {
    var op := BinaryOperator(l);
    if op.And? || op.Or? then Bad(IllTyped) else Strict(ops, false, op, IntV(a), IntV(b))
  }

  /** An int that differs from `x` by a multiple of 2^32. */
  predicate Wraps(r: OpResult, x: int) {
    r.Good? && r.v.IntV? && (r.v.n - x) % 0x1_0000_0000 == 0
  }

  /** How often `b` goes into `a`, where negative numbers stand for what they are modulo 2^32. */
  predicate GoesInto(a: I32, b: I32, r: OpResult) {
    && r.Good? && r.v.IntV?
    && var (x, y, q) := (Modulo32(a), Modulo32(b), Modulo32(r.v.n));
       q * y <= x < q * y + y
  }

  function Modulo32(n: int): nat { n % 0x1_0000_0000 }

  lemma ModuloIsUnsigned(n: I32)
    ensures Unsigned(n) == Modulo32(n)
  {
  }

  /** Arithmetic on ints wraps around, and division is that of the unsigned readings. */
  lemma IntArithmeticMeans(ops: FloatOps, a: I32, b: I32)
    ensures Wraps(OnInts(ops, "+", a, b), a + b) && Wraps(OnInts(ops, "-", a, b), a - b)
    ensures Wraps(OnInts(ops, "*", a, b), a * b)
    ensures if b == 0 then OnInts(ops, "/", a, b) == Bad(DivByZero) else GoesInto(a, b, OnInts(ops, "/", a, b))
  {
    hide BinaryOperator, Wrap32, UnsignedDiv, Modulo32, Unsigned;
    OperatorNames();
    if b != 0 {
      DivisionLaw(a, b);
      ModuloIsUnsigned(a);
      ModuloIsUnsigned(b);
      ModuloIsUnsigned(UnsignedDiv(a, b));
    }
  }

  /** Ints are compared as signed numbers. */
  lemma IntRelationMeans(ops: FloatOps, a: I32, b: I32)
    ensures OnInts(ops, "==", a, b) == Good(BoolV(a == b)) && OnInts(ops, "!=", a, b) == Good(BoolV(a != b))
    ensures OnInts(ops, "<", a, b) == Good(BoolV(a < b)) && OnInts(ops, "<=", a, b) == Good(BoolV(a <= b))
    ensures OnInts(ops, ">", a, b) == Good(BoolV(b < a)) && OnInts(ops, ">=", a, b) == Good(BoolV(b <= a))
  {
    hide BinaryOperator, IntArithmetic;
    OperatorNames();
  }

  /** The value as a float operand. */
  function AsFloat(ops: FloatOps, v: Val): F32 {
    match v
    case FloatV(f) => f
    case IntV(n) => ops.ofInt(n)
    case BoolV(b) => ops.ofInt(if b then -1 else 0)
  }

  /** With a float on either side both are floats. */
  lemma FloatArithmeticMeans(ops: FloatOps, l: Val, r: Val)
    ensures var x, y := AsFloat(ops, l), AsFloat(ops, r);
      && Strict(ops, true, BinaryOperator("+"), l, r) == Good(FloatV(ops.add(x, y)))
      && Strict(ops, true, BinaryOperator("-"), l, r) == Good(FloatV(ops.sub(x, y)))
      && Strict(ops, true, BinaryOperator("*"), l, r) == Good(FloatV(ops.mul(x, y)))
      && Strict(ops, true, BinaryOperator("/"), l, r) == Good(FloatV(ops.div(x, y)))
  {
    hide BinaryOperator, Convert, AsFloat;
    OperatorNames();
    FloatOperand(ops, l);
    FloatOperand(ops, r);
  }

  lemma FloatRelationMeans(ops: FloatOps, l: Val, r: Val)
    ensures var x, y := AsFloat(ops, l), AsFloat(ops, r);
      && Strict(ops, true, BinaryOperator("<"), l, r) == Good(BoolV(ops.lt(x, y)))
      && Strict(ops, true, BinaryOperator("<="), l, r) == Good(BoolV(ops.le(x, y)))
      && Strict(ops, true, BinaryOperator(">"), l, r) == Good(BoolV(ops.gt(x, y)))
      && Strict(ops, true, BinaryOperator(">="), l, r) == Good(BoolV(ops.ge(x, y)))
      && Strict(ops, true, BinaryOperator("=="), l, r) == Good(BoolV(ops.eq(x, y)))
      && Strict(ops, true, BinaryOperator("!="), l, r) == Good(BoolV(ops.ne(x, y)))
  {
    hide BinaryOperator, Convert, AsFloat;
    OperatorNames();
    FloatOperand(ops, l);
    FloatOperand(ops, r);
  }

  lemma FloatOperand(ops: FloatOps, v: Val)
    ensures Convert(ops, v, FLOAT) == FloatV(AsFloat(ops, v))
  {
  }

  lemma OperatorNames()
    ensures BinaryOperator("+") == Add && BinaryOperator("-") == Sub && BinaryOperator("*") == Mul && BinaryOperator("/") == Div
    ensures BinaryOperator("==") == Eq && BinaryOperator("!=") == Ne && BinaryOperator("<") == Lt && BinaryOperator("<=") == Le
    ensures BinaryOperator(">") == Gt && BinaryOperator(">=") == Ge && BinaryOperator("&&") == And && BinaryOperator("||") == Or
  {
  }

  /** A minus is the distance from zero, wrapped around; twice a minus or a `!` is nothing. */
  lemma PrefixOperators(ops: FloatOps, n: I32, b: bool)
    ensures Wraps(Monadic(ops, UnaryOperator("-"), INTEGER, IntV(n)), 0 - n)
    ensures Monadic(ops, UnaryOperator("!"), BOOL, BoolV(b)) == Good(BoolV(!b))
    ensures Monadic(ops, UnaryOperator("+"), INTEGER, IntV(n)) == Good(IntV(n))
    ensures var once := Monadic(ops, UnaryOperator("-"), INTEGER, IntV(n));
      once.Good? && Monadic(ops, UnaryOperator("-"), INTEGER, once.v) == Good(IntV(n))
  {
  }

  // ----- conversions -----

  /** Converting a number to bool keeps it modulo 2: `True` is the one-bit number -1. */
  lemma BoolConversions(ops: FloatOps, n: I32, b: bool)
    ensures var c := Convert(ops, IntV(n), BOOL); c.BoolV? && ((if c.b then 1 else 0) - n) % 2 == 0
    ensures var m := Convert(ops, BoolV(b), INTEGER); m.IntV? && -1 <= m.n <= 0 && Convert(ops, m, BOOL) == BoolV(b)
    ensures Convert(ops, Convert(ops, IntV(n), BOOL), INTEGER) == IntV(n) <==> n == 0 || n == -1
    ensures Convert(ops, BoolV(b), FLOAT) == Convert(ops, Convert(ops, BoolV(b), INTEGER), FLOAT)
  {
  }

  /** `print` shows a bool as the 0 or 1 that converts to it, which is not the int it converts to. */
  lemma BoolsPrintAsZeroOrOne(ops: FloatOps, b: bool)
    ensures var e := Shown(ops, BOOL, BoolV(b));
      e.Some? && e.value.PrintInt? && 0 <= e.value.n <= 1 && Convert(ops, IntV(e.value.n), BOOL) == BoolV(b)
    ensures Shown(ops, BOOL, BoolV(b)) == Shown(ops, INTEGER, Convert(ops, BoolV(b), INTEGER)) <==> !b
  {
  }

  /** The types by their names, and the two constants. */
  lemma NamesOfTypes(k: FloatReader, v: Val)
    ensures HasType(v, FromString("int")) <==> v.IntV?
    ensures HasType(v, FromString("float")) <==> v.FloatV?
    ensures HasType(v, FromString("bool")) <==> v.BoolV?
    ensures Denote(k, map[], map[], CBool("True")) == Some(BoolLit(true))
    ensures Denote(k, map[], map[], CBool("False")) == Some(BoolLit(false))
  {
  }

  // ----- how operators group -----

  /** The operators from the loosest to the tightest. */
  function Rank(l: string): Option<nat> {
    if l == "||" then Some(0)
    else if l == "&&" then Some(1)
    else if l == "==" || l == "!=" then Some(2)
    else if l == "<" || l == "<=" || l == ">" || l == ">=" then Some(3)
    else if l == "+" || l == "-" then Some(4)
    else if l == "*" || l == "/" then Some(5)
    else None
  }

  lemma RankIsLevel(t: T.Tok)
    requires T.Proper(t) && Rank(t.lexeme).Some?
    ensures t == T.Tok(LevelToken(Rank(t.lexeme).value), t.lexeme)
  {
    hide T.Proper, IsSymbol;
    RankedStart(t.lexeme);
    SymbolForm(t);
    RankedSymbol(t);
  }

  lemma RankedStart(l: string)
    requires Rank(l).Some?
    ensures l != [] && !T.IsAlpha(l[0]) && !T.IsDigit(l[0])
  {
  }

  lemma RankedSymbol(t: T.Tok)
    requires Rank(t.lexeme).Some? && IsSymbol(t)
    ensures t.ty == LevelToken(Rank(t.lexeme).value)
  {
  }

  /** An operand: a name, a literal, a call, a parenthesis, or one of these after prefix operators. */
  predicate Operand(c: CExpr) { AtLevel(c, 6) && !EndsOpen(c) }

  /** The tighter operator is applied first; of two that are equally tight, the right one. */
  predicate GroupsAs(e: Expr, a: Expr, l1: string, b: Expr, l2: string, c: Expr)
    requires Rank(l1).Some? && Rank(l2).Some?
  {
    && e.Binary?
    && if Rank(l1).value > Rank(l2).value then
         && e.op == BinaryOperator(l2) && e.rhs == c
         && e.lhs.Binary? && e.lhs.op == BinaryOperator(l1) && e.lhs.lhs == a && e.lhs.rhs == b
       else
         && e.op == BinaryOperator(l1) && e.lhs == a
         && e.rhs.Binary? && e.rhs.op == BinaryOperator(l2) && e.rhs.lhs == b && e.rhs.rhs == c
  }

  /** The three operands with their operators, grouped by rank. */
  function Grouped(x: CExpr, l1: string, y: CExpr, l2: string, z: CExpr): CExpr
    requires Rank(l1).Some? && Rank(l2).Some?
  {
    var (m, n) := (Rank(l1).value, Rank(l2).value);
    if m > n then CBinary(n, l2, CBinary(m, l1, x, y), z) else CBinary(m, l1, x, CBinary(n, l2, y, z))
  }

  lemma GroupedTokens(x: CExpr, t1: T.Tok, y: CExpr, t2: T.Tok, z: CExpr, rest: seq<T.Tok>)
    requires Rank(t1.lexeme).Some? && Rank(t2.lexeme).Some?
    requires t1 == T.Tok(LevelToken(Rank(t1.lexeme).value), t1.lexeme)
    requires t2 == T.Tok(LevelToken(Rank(t2.lexeme).value), t2.lexeme)
    ensures Yield(Grouped(x, t1.lexeme, y, t2.lexeme, z)) == Yield(x) + [t1] + Yield(y) + [t2] + Yield(z)
  {
    hide LevelToken;
    assert Yield(x) + [t1] + (Yield(y) + [t2] + Yield(z)) == Yield(x) + [t1] + Yield(y) + [t2] + Yield(z);
  }

  lemma {:induction false} OperandsFitAnyLevel(c: CExpr, level: nat)
    requires AtLevel(c, 6) && level <= 6
    ensures AtLevel(c, level)
  {
  }

  lemma RankBelowSix(l: string)
    ensures Rank(l).Some? ==> Rank(l).value < 6
  {
  }

  lemma BinaryStops(m: nat, l: string, a: CExpr, b: CExpr, rest: seq<T.Tok>)
    ensures Stops(CBinary(m, l, a, b), rest, 0) <==> Stops(b, rest, 0)
    ensures EndsOpen(CBinary(m, l, a, b)) == EndsOpen(b)
  {
    assert rest != [] ==> (GoesOn(CBinary(m, l, a, b), 0, rest[0].ty) <==> GoesOn(b, 0, rest[0].ty));
  }

  lemma GroupedAtLevel(x: CExpr, l1: string, y: CExpr, l2: string, z: CExpr, rest: seq<T.Tok>)
    requires Rank(l1).Some? && Rank(l2).Some? && Operand(x) && Operand(y) && AtLevel(z, 6) && Stops(z, rest, 0)
    ensures AtLevel(Grouped(x, l1, y, l2, z), 0) && Stops(Grouped(x, l1, y, l2, z), rest, 0)
  {
    hide Stops, Rank;
    var (m, n) := (Rank(l1).value, Rank(l2).value);
    RankBelowSix(l1);
    RankBelowSix(l2);
    BinaryStops(m, l1, x, y, rest);
    BinaryStops(n, l2, y, z, rest);
    BinaryStops(n, l2, CBinary(m, l1, x, y), z, rest);
    BinaryStops(m, l1, x, CBinary(n, l2, y, z), rest);
    OperandsFitAnyLevel(x, m + 1);
    OperandsFitAnyLevel(y, m);
    OperandsFitAnyLevel(y, n + 1);
    OperandsFitAnyLevel(z, n);
  }

  lemma GroupedDenotes(k: FloatReader, s: PState, x: CExpr, l1: string, y: CExpr, l2: string, z: CExpr, a: Expr, b: Expr, c: Expr)
    requires Rank(l1).Some? && Rank(l2).Some?
    requires Denote(k, s.scope, s.funcs, x) == Some(a) && Denote(k, s.scope, s.funcs, y) == Some(b)
    requires Denote(k, s.scope, s.funcs, z) == Some(c)
    ensures var d := Denote(k, s.scope, s.funcs, Grouped(x, l1, y, l2, z));
      d.Some? ==> GroupsAs(d.value, a, l1, b, l2, c)
  {
    hide BinaryOperator, Rank, Denote, IsBinary;
    var (m, n) := (Rank(l1).value, Rank(l2).value);
    var d := Denote(k, s.scope, s.funcs, Grouped(x, l1, y, l2, z));
    if d.Some? {
      if m > n {
        var e := BinaryDenotes(k, s, n, l2, CBinary(m, l1, x, y), z, d.value);
        var f := BinaryDenotes(k, s, m, l1, x, y, e.0);
        LeftGroup(d.value, e.0, a, l1, b, l2, c);
      } else {
        var e := BinaryDenotes(k, s, m, l1, x, CBinary(n, l2, y, z), d.value);
        var f := BinaryDenotes(k, s, n, l2, y, z, e.1);
        RightGroup(d.value, e.1, a, l1, b, l2, c);
      }
    }
  }

  predicate IsBinary(e: Expr, l: string, a: Expr, b: Expr) {
    e.Binary? && e.op == BinaryOperator(l) && e.lhs == a && e.rhs == b
  }

  lemma LeftGroup(e: Expr, ab: Expr, a: Expr, l1: string, b: Expr, l2: string, c: Expr)
    requires Rank(l1).Some? && Rank(l2).Some? && Rank(l1).value > Rank(l2).value
    requires IsBinary(e, l2, ab, c) && IsBinary(ab, l1, a, b)
    ensures GroupsAs(e, a, l1, b, l2, c)
  {
    hide BinaryOperator, Rank;
  }

  lemma RightGroup(e: Expr, bc: Expr, a: Expr, l1: string, b: Expr, l2: string, c: Expr)
    requires Rank(l1).Some? && Rank(l2).Some? && Rank(l1).value <= Rank(l2).value
    requires IsBinary(e, l1, a, bc) && IsBinary(bc, l2, b, c)
    ensures GroupsAs(e, a, l1, b, l2, c)
  {
    hide BinaryOperator, Rank;
  }

  lemma BinaryDenotes(k: FloatReader, s: PState, m: nat, l: string, a: CExpr, b: CExpr, e: Expr) returns (parts: (Expr, Expr))
    requires Denote(k, s.scope, s.funcs, CBinary(m, l, a, b)) == Some(e)
    ensures Denote(k, s.scope, s.funcs, a) == Some(parts.0) && Denote(k, s.scope, s.funcs, b) == Some(parts.1)
    ensures IsBinary(e, l, parts.0, parts.1)
  {
    hide BinaryOperator, OperandsFit, BinaryType;
    parts := (e.lhs, e.rhs);
  }

  /** An expression of three operands and two operators is parsed as their ranks say, unless that is
      an error: the tighter operator is applied first, and of two that are equally tight the right one. */
  lemma OperatorsGroupByRank(k: FloatReader, s: PState, t0: T.Tok, x: CExpr, t1: T.Tok, y: CExpr, t2: T.Tok, z: CExpr,
                             a: Expr, b: Expr, c: Expr, rest: seq<T.Tok>)
    requires s.rest == [t0] + (Yield(x) + [t1] + Yield(y) + [t2] + Yield(z) + rest)
    requires T.Proper(t1) && T.Proper(t2) && Rank(t1.lexeme).Some? && Rank(t2.lexeme).Some?
    requires Operand(x) && Operand(y) && AtLevel(z, 6) && Stops(z, rest, 0)
    requires Denote(k, s.scope, s.funcs, x) == Some(a) && Denote(k, s.scope, s.funcs, y) == Some(b)
    requires Denote(k, s.scope, s.funcs, z) == Some(c)
    ensures var r := ParseExpression(k, s);
      !r.s.isError ==> r.s.rest == rest && r.e.Some? && GroupsAs(r.e.value, a, t1.lexeme, b, t2.lexeme, c)
  {
    hide T.Proper, Rank, Operand, AtLevel, Stops, Denote, Yield, ParseExpression, Grouped, GroupsAs, LevelToken, Neat;
    RankIsLevel(t1);
    RankIsLevel(t2);
    GroupedTokens(x, t1, y, t2, z, rest);
    GroupedAtLevel(x, t1.lexeme, y, t2.lexeme, z, rest);
    GroupedDenotes(k, s, x, t1.lexeme, y, t2.lexeme, z, a, b, c);
    var tree := Grouped(x, t1.lexeme, y, t2.lexeme, z);
    match Denote(k, s.scope, s.funcs, tree)
    case None => FailExpression(k, s, t0, tree, rest);
    case Some(e) => CompleteExpression(k, s, t0, tree, e, rest);
  }
}
