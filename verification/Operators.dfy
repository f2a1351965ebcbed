/** Each operator's emitted instructions compute what the language says it does. */
module Operators {
  import opened Wrappers
  import opened Values
  import opened Ast
  import opened Source
  import opened Ir
  import opened Lowering
  import opened Shape
  import opened Visits
  import opened Matching

  lemma ConvertIsCast(ops: FloatOps, v: Val, t: TType)
    ensures TypeOfVal(Convert(ops, v, t)) == ToLType(t)
    ensures TypeOfVal(v) == ToLType(t) ==> Convert(ops, v, t) == v
    ensures TypeOfVal(v) != ToLType(t) ==> Cast(ops, v, ToLType(t)) == Got(Convert(ops, v, t))
  {
  }

  lemma SimCast(c: Code, ops: FloatOps, g: Gen, op: Operand, t: TType, v: Val, s: State) returns (n: nat)
    requires At(g, s) && Open(g) && HasValue(g, s.cur, op, v)
    requires Extends(LowerCast(g, op, ToLType(t)).g.code, c)
    ensures ExprDone(g, LowerCast(g, op, ToLType(t)), s, Run(c, ops, s, n), Convert(ops, v, t))
    ensures Run(c, ops, s, n).out == s.out
  {
    ConvertIsCast(ops, v, t);
    if OperandType(g, op) == ToLType(t) {
      n := 0;
    } else {
      n := 1;
      StepOp1(c, ops, g, ToLType(t), CastTo(ToLType(t)), op, v, Convert(ops, v, t), s);
    }
  }

  function AsFetched(r: OpResult): Fetched {
    match r
    case Good(v) => Got(v)
    case Bad(DivByZero) => Missing(DivisionByZero)
    case Bad(_) => Missing(TypeMismatch)
  }

  function Promote(ops: FloatOps, isFloat: bool, v: Val): Val {
    if isFloat then Convert(ops, v, FLOAT) else v
  }

  lemma SelectedOp2(ops: FloatOps, isFloat: bool, op: BinaryOp, a: Val, b: Val)
    requires op.IsArithmetic() || op.IsRelation()
    ensures RunOp2(ops, SelectOp2(isFloat, op), Promote(ops, isFloat, a), Promote(ops, isFloat, b))
         == AsFetched(Strict(ops, isFloat, op, a, b))
    ensures Strict(ops, isFloat, op, a, b).Good? ==>
      TypeOfVal(Strict(ops, isFloat, op, a, b).v) == ResultType(isFloat, op)
    ensures Strict(ops, isFloat, op, a, b).Bad? ==> Strict(ops, isFloat, op, a, b).why in {DivByZero, IllTyped}
  {
  }

  /** The outcome of a step that may also fault. */
  ghost predicate OpDone(g: Gen, r: Lowered, s: State, t: State, res: OpResult, n: nat, fuel: nat) {
    && t.out == s.out
    && match res
       case Good(v) => ExprDone(g, r, s, t, v)
       case Bad(why) => StopsAs(t, why, n, fuel) && HaltsIn(g, r.g, s, t)
  }

  lemma StepOp2(c: Code, ops: FloatOps, g: Gen, isFloat: bool, op: BinaryOp, l: Operand, r: Operand,
                a: Val, b: Val, s: State, fuel: nat)
    requires op.IsArithmetic() || op.IsRelation()
    requires At(g, s) && Open(g)
    requires HasValue(g, s.cur, l, Promote(ops, isFloat, a)) && HasValue(g, s.cur, r, Promote(ops, isFloat, b))
    requires Extends(EmitDef(g, ResultType(isFloat, op), Op2(NextReg(g), SelectOp2(isFloat, op), l, r)).code, c)
    ensures OpDone(g,
      Lowered(EmitDef(g, ResultType(isFloat, op), Op2(NextReg(g), SelectOp2(isFloat, op), l, r)), Some(Reg(NextReg(g)))),
      s, Run(c, ops, s, 1), Strict(ops, isFloat, op, a, b), 1, fuel)
  {
    var i := Op2(NextReg(g), SelectOp2(isFloat, op), l, r);
    SelectedOp2(ops, isFloat, op, a, b);
    hide Strict, SelectOp2, RunOp2, Promote;
    assert Fetch(s.cur, l) == Got(Promote(ops, isFloat, a)) && Fetch(s.cur, r) == Got(Promote(ops, isFloat, b)) by {
      CanFetch(g, s.cur, l, Promote(ops, isFloat, a));
      CanFetch(g, s.cur, r, Promote(ops, isFloat, b));
    }
    match Strict(ops, isFloat, op, a, b)
    case Good(v) => StepDef(c, ops, g, ResultType(isFloat, op), i, v, s);
    case Bad(why) =>
      FetchInstr(c, ops, g.(code := g.code.(regs := g.code.regs + [ResultType(isFloat, op)])), i, s);
  }

  lemma CanFetch(g: Gen, fr: Frame, op: Operand, v: Val)
    requires HasValue(g, fr, op, v)
    ensures Fetch(fr, op) == Got(v)
  {
  }

  lemma SimPromote(c: Code, ops: FloatOps, g: Gen, isFloat: bool, op: Operand, v: Val, s: State) returns (n: nat)
    requires At(g, s) && Open(g) && HasValue(g, s.cur, op, v)
    requires isFloat ==> Extends(LowerCast(g, op, F32T).g.code, c)
    ensures var r := if isFloat then LowerCast(g, op, F32T) else Lowered(g, Some(op));
      ExprDone(g, r, s, Run(c, ops, s, n), Promote(ops, isFloat, v))
    ensures Run(c, ops, s, n).out == s.out
  {
    if isFloat {
      n := SimCast(c, ops, g, op, FLOAT, v, s);
    } else {
      n := 0;
    }
  }

  /** `l1` then `r1` then the operation: the casts come after both operands. */
  lemma SimStrict(c: Code, ops: FloatOps, g: Gen, isFloat: bool, op: BinaryOp, l: Operand, r: Operand,
                  a: Val, b: Val, s: State, fuel: nat, lo: nat) returns (n: nat)
    requires op.IsArithmetic() || op.IsRelation()
    requires At(g, s) && Ready(g, lo)
    requires HasValue(g, s.cur, l, a) && HasValue(g, s.cur, r, b)
    requires Extends(LowerStrict(g, isFloat, op, l, r).g.code, c)
    ensures n > 0 && OpDone(g, LowerStrict(g, isFloat, op, l, r), s, Run(c, ops, s, n), Strict(ops, isFloat, op, a, b), n, fuel)
  {
    hide Strict, SelectOp2, Extends, Keeps, Terminated, HasValue, KeepsCells, Ready, InsertBlock, Along, HaltsIn;
    var l1 := if isFloat then LowerCast(g, l, F32T) else Lowered(g, Some(l));
    var r1 := if isFloat then LowerCast(l1.g, r, F32T) else Lowered(l1.g, Some(r));
    StrictStages(c, g, isFloat, op, l, r, lo);
    var n1 := SimPromote(c, ops, g, isFloat, l, a, s);
    var s1 := Run(c, ops, s, n1);
    ValueKept(g, l1.g, r, b, s, s1);
    var n2 := SimPromote(c, ops, l1.g, isFloat, r, b, s1);
    var s2 := Run(c, ops, s1, n2);
    ValueKept(l1.g, r1.g, l1.operand.value, Promote(ops, isFloat, a), s1, s2);
    StepOp2(c, ops, r1.g, isFloat, op, l1.operand.value, r1.operand.value, a, b, s2, fuel);
    n := n1 + n2 + 1;
    RunTwice(c, ops, s, n1, n2);
    RunTwice(c, ops, s, n1 + n2, 1);
    var s3 := Run(c, ops, s2, 1);
    DonesCompose(g, l1, r1, LowerStrict(g, isFloat, op, l, r), s, s1, s2, s3,
      Promote(ops, isFloat, a), Promote(ops, isFloat, b), Strict(ops, isFloat, op, a, b), 1, n, fuel);
  }

  /** Both operands are ready and the operation is done: seen from the start. */
  lemma DonesCompose(g: Gen, l1: Lowered, r1: Lowered, r: Lowered, s: State, s1: State, s2: State, s3: State,
                     a: Val, b: Val, res: OpResult, m: nat, n: nat, fuel: nat)
    requires ExprDone(g, l1, s, s1, a) && ExprDone(l1.g, r1, s1, s2, b) && s2.out == s1.out == s.out
    requires OpDone(r1.g, r, s2, s3, res, m, fuel) && m <= n
    requires NextReg(g) <= NextReg(l1.g) <= NextReg(r1.g) && NextLabel(r1.g) <= NextLabel(r.g)
    ensures OpDone(g, r, s, s3, res, n, fuel)
  {
    hide At, HasValue, Along, HaltsIn;
    AlongThen(g, l1.g, r1.g, s, s1, s2);
    KeepsTransitive(g, l1.g, s, s1, s2);
    if res.Good? {
      KeepsTransitive(g, r1.g, s, s2, s3);
      AlongThen(g, r1.g, r.g, s, s2, s3);
    } else {
      HaltsLater(g, r1.g, r.g, r.g, s, s2, s3);
    }
  }

  lemma StrictStages(c: Code, g: Gen, isFloat: bool, op: BinaryOp, l: Operand, r: Operand, lo: nat)
    requires op.IsArithmetic() || op.IsRelation()
    requires Ready(g, lo) && Extends(LowerStrict(g, isFloat, op, l, r).g.code, c)
    ensures var l1 := if isFloat then LowerCast(g, l, F32T) else Lowered(g, Some(l));
      var r1 := if isFloat then LowerCast(l1.g, r, F32T) else Lowered(l1.g, Some(r));
      && Open(g) && Open(l1.g) && Open(r1.g) && Extends(l1.g.code, c) && Extends(r1.g.code, c)
      && Extends(g.code, l1.g.code) && Extends(l1.g.code, r1.g.code)
  {
    var l1 := if isFloat then LowerCast(g, l, F32T) else Lowered(g, Some(l));
    var r1 := if isFloat then LowerCast(l1.g, r, F32T) else Lowered(l1.g, Some(r));
    if isFloat {
      ShapeCast(g, l, F32T, lo);
      ShapeCast(l1.g, r, F32T, lo);
    } else {
      GrowsRefl(g);
    }
    var i := Op2(NextReg(r1.g), SelectOp2(isFloat, op), l1.operand.value, r1.operand.value);
    ShapeDef(r1.g, ResultType(isFloat, op), i, lo);
    ExtendsTransitive(r1.g.code, LowerStrict(g, isFloat, op, l, r).g.code, c);
    ExtendsTransitive(l1.g.code, r1.g.code, c);
  }
}
