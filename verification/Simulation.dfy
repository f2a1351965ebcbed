/** The machine running the emitted code follows the interpreter: every outcome of the interpreter,
    normal or not, is the machine's, and a time-out means the machine is still running. */
module Simulation {
  import opened Wrappers
  import opened Values
  import opened Ast
  import opened Source
  import opened Ir
  import opened Lowering
  import opened Shape
  import opened Visits
  import opened Stages
  import opened FlowGraph
  import opened Matching
  import opened Operators
  import opened ShortCircuit
  import opened Scoping
  import opened Statements
  import opened Calls
  import opened Unfolding
  import opened Declarations
  import opened Executions

  /** The surroundings of a visit: the program, the finished code, the type the enclosing function
      returns and that function's first label. */
  datatype Context = Context(w: World, c: Code, ret: TType, lo: nat)

  /** The machine stands at the point `g` with the variables `env`. */
  ghost predicate Here(k: Context, g: Gen, env: Env, s: State) {
    Inside(k.w, k.c, g, k.ret) && Ready(g, k.lo) && At(g, s) && Match(g, env, s.cur)
  }

  ghost predicate Lowers(k: Context, g: Gen, e: Expr) {
    LowerExpr(g, e).g.ok && Extends(LowerExpr(g, e).g.code, k.c)
  }

  function Go(k: Context, s: State, n: nat): State { Run(k.c, k.w.ops, s, n) }

  ghost predicate ExprOutcome(g: Gen, r: Lowered, s: State, t: State, res: ExprResult, n: nat, fuel: nat) {
    match res
    case Value(v, out) => ExprDone(g, r, s, t, v) && t.out == out
    case Halted(why, out) => StopsAs(t, why, n, fuel) && t.out == out && HaltsIn(g, r.g, s, t)
  }

  ghost predicate ArgsOutcome(g: Gen, r: LoweredArgs, s: State, t: State, res: ArgsResult, n: nat, fuel: nat) {
    match res
    case Arguments(vs, out) => ArgsDone(g, r, s, t, vs) && t.out == out
    case ArgsHalted(why, out) => StopsAs(t, why, n, fuel) && t.out == out && HaltsIn(g, r.g, s, t)
  }

  ghost predicate StmtOutcome(k: Context, g: Gen, h: Gen, s: State, t: State, res: StmtResult, n: nat, fuel: nat) {
    match res
    case Normal(env, out) => Open(h) && StmtDone(g, h, s, t, env) && t.out == out
    case Returned(v, out) => BodyReturns(k, s, t, v) && t.out == out
    case Stopped(why, out) => StopsAs(t, why, n, fuel) && t.out == out && Above(s, t)
  }

  ghost predicate BodyReturns(k: Context, s: State, t: State, v: Val) {
    && AtReturn(k.c, k.w.ops, t, v) && TypeOfVal(v) == ToLType(k.ret)
    && t.callers == s.callers && t.cur.dst == s.cur.dst
  }

  /** What the rest of a function does after a call has been entered. */
  ghost predicate CallOutcome(k: Context, s: State, t: State, res: ExprResult, n: nat, fuel: nat) {
    match res
    case Value(v, out) => BodyReturns(k, s, t, v) && t.out == out
    case Halted(why, out) => StopsAs(t, why, n + 1, fuel) && t.out == out && Above(s, t)
  }

  // ----- glue -----

  lemma GoTwice(k: Context, s: State, m: nat, n: nat)
    ensures Go(k, s, m + n) == Go(k, Go(k, s, m), n)
  {
    RunTwice(k.c, k.w.ops, s, m, n);
  }

  lemma HereLater(k: Context, g: Gen, h: Gen, env: Env, s: State, t: State)
    requires Here(k, g, env, s) && Later(g, h) && Widens(g.scopes, h.scopes) && h.scopes != [] && Ready(h, k.lo) && At(h, t)
    requires Keeps(g, s, t) && KeepsCells(s, t)
    ensures Here(k, h, env, t)
  {
    MatchKept(g, h, env, s, t);
    InsideLater(k.w, k.c, g, h, k.ret);
  }

  lemma HereAfter(k: Context, g: Gen, r: Lowered, env: Env, s: State, t: State, v: Val)
    requires Here(k, g, env, s) && ExprShape(g, r, k.lo) && ExprDone(g, r, s, t, v)
    ensures Here(k, r.g, env, t)
  {
    HereLater(k, g, r.g, env, s, t);
  }

  /** A visit that succeeded contains the ones it is made of. */
  lemma ExtendsLater(c: Code, g: Gen, h: Gen)
    requires Grows(g, h) && Extends(h.code, c)
    ensures Extends(g.code, c)
  {
    ExtendsTransitive(g.code, h.code, c);
  }

  lemma KeepsAfter(g: Gen, h: Gen, s: State, t: State, u: State)
    requires Grows(g, h) && Keeps(g, s, t) && Keeps(h, t, u)
    ensures Keeps(g, s, u)
    ensures KeepsCells(s, t) && KeepsCells(t, u) ==> KeepsCells(s, u)
  {
    KeepsTransitive(g, h, s, t, u);
  }

  /** An expression after a prefix that ended in `s1`. */
  lemma ExprLater(g: Gen, g1: Gen, r: Lowered, s: State, s1: State, t: State, v: Val)
    requires Grows(g, g1) && Keeps(g, s, s1) && KeepsCells(s, s1) && Along(g, g1, s, s1) && ExprDone(g1, r, s1, t, v)
    ensures ExprDone(g, r, s, t, v)
  {
    hide Along, HasValue;
    KeepsTransitive(g, g1, s, s1, t);
    AlongThen(g, g1, r.g, s, s1, t);
  }

  lemma OutcomeLater(g: Gen, g1: Gen, r: Lowered, s: State, s1: State, t: State, res: ExprResult, m: nat, n: nat, fuel: nat)
    requires Grows(g, g1) && Keeps(g, s, s1) && KeepsCells(s, s1) && Along(g, g1, s, s1) && NextLabel(g1) <= NextLabel(r.g)
    requires ExprOutcome(g1, r, s1, t, res, n, fuel)
    ensures ExprOutcome(g, r, s, t, res, m + n, fuel)
  {
    hide Along, HaltsIn, Keeps, KeepsCells, Grows;
    if res.Value? {
      ExprLater(g, g1, r, s, s1, t, res.v);
    } else {
      HaltsLater(g, g1, r.g, r.g, s, s1, t);
    }
  }

  lemma OutcomeValue(g: Gen, r: Lowered, s: State, t: State, res: ExprResult, n: nat, fuel: nat)
    requires ExprOutcome(g, r, s, t, res, n, fuel) && res.Value?
    ensures ExprDone(g, r, s, t, res.v) && t.out == res.out
  {
  }

  /** A halt is a halt of whatever contains it. */
  lemma OutcomeHalted(g1: Gen, r1: Lowered, s1: State, g: Gen, r: Lowered, s: State, t: State, res: ExprResult, n: nat, fuel: nat)
    requires ExprOutcome(g1, r1, s1, t, res, n, fuel) && res.Halted?
    requires Along(g, g1, s, s1) && NextLabel(g1) <= NextLabel(r1.g) <= NextLabel(r.g)
    ensures ExprOutcome(g, r, s, t, res, n, fuel)
  {
    hide Along, HaltsIn;
    HaltsLater(g, g1, r1.g, r.g, s, s1, t);
  }

  lemma OutcomeHaltsIn(g: Gen, r: Lowered, s: State, t: State, res: ExprResult, n: nat, fuel: nat)
    requires ExprOutcome(g, r, s, t, res, n, fuel) && res.Halted?
    ensures HaltsIn(g, r.g, s, t)
  {
  }

  lemma AlongSelf(g: Gen, s: State)
    ensures Along(g, g, s, s)
  {
  }

  lemma DoneAlong(g: Gen, r: Lowered, s: State, t: State, v: Val)
    requires ExprDone(g, r, s, t, v)
    ensures Along(g, r.g, s, t)
  {
  }

  /** `n` more steps after `m` steps from `s1`. */
  lemma Sequel(k: Context, g: Gen, r: Lowered, s: State, s1: State, res: ExprResult, m: nat, n: nat, fuel: nat)
    returns (sum: nat)
    requires ExprOutcome(g, r, s, Go(k, Go(k, s1, m), n), res, n, fuel)
    ensures ExprOutcome(g, r, s, Go(k, s1, sum), res, sum, fuel) && sum >= m
    ensures Go(k, s1, sum) == Go(k, Go(k, s1, m), n)
  {
    GoTwice(k, s1, m, n);
    sum := m + n;
  }

  lemma OpOutcome(g: Gen, r: Lowered, s: State, t: State, res: OpResult, n: nat, fuel: nat)
    requires OpDone(g, r, s, t, res, n, fuel)
    ensures ExprOutcome(g, r, s, t, Conclude(res, s.out), n, fuel)
  {
  }

  // ----- expressions -----

  lemma {:induction false} SimExpr(k: Context, g: Gen, e: Expr, env: Env, fuel: nat, s: State) returns (n: nat)
    requires Here(k, g, env, s) && Lowers(k, g, e) && NamesIn(e) <= env.Keys
    ensures ExprOutcome(g, LowerExpr(g, e), s, Go(k, s, n), Eval(k.w, e, env, s.out, fuel), n, fuel)
    decreases fuel, 1, e, 3
  {
    match e
    case Var(x, t) => n := SimVar(k, g, e, env, fuel, s);
    case BoolLit(_) => n := 0;
    case IntLit(_) => n := 0;
    case FloatLit(_) => n := 0;
    case Unary(_, _) => n := SimUnary(k, g, e, env, fuel, s);
    case Binary(_, op, _, _) =>
      if op.And? || op.Or? {
        n := SimLogical(k, g, e, env, fuel, s);
      } else {
        n := SimBinary(k, g, e, env, fuel, s);
      }
    case Call(_, _, _) => n := SimCall(k, g, e, env, fuel, s);
  }

  lemma SimVar(k: Context, g: Gen, e: Expr, env: Env, fuel: nat, s: State) returns (n: nat)
    requires e.Var? && Here(k, g, env, s) && Lowers(k, g, e) && NamesIn(e) <= env.Keys
    ensures ExprOutcome(g, LowerExpr(g, e), s, Go(k, s, n), Eval(k.w, e, env, s.out, fuel), n, fuel)
  {
    var t, r := ToLType(e.varTy), SlotOf(g, e.name);
    var i := Load(NextReg(g), t, r);
    assert e.name in NamesIn(e);
    assert VarMatches(g, env, s.cur, e.name);
    n := 1;
    var v := env[e.name];
    if HasType(v, e.varTy) {
      StepDef(k.c, k.w.ops, g, t, i, v, s);
    } else {
      FetchInstr(k.c, k.w.ops, g.(code := g.code.(regs := g.code.regs + [t])), i, s);
    }
  }

  lemma {:induction false} SimUnary(k: Context, g: Gen, e: Expr, env: Env, fuel: nat, s: State) returns (n: nat)
    requires e.Unary? && Here(k, g, env, s) && Lowers(k, g, e) && NamesIn(e) <= env.Keys
    ensures ExprOutcome(g, LowerExpr(g, e), s, Go(k, s, n), Eval(k.w, e, env, s.out, fuel), n, fuel)
    decreases fuel, 1, e, 2
  {
    EvalUnary(k.w, e, env, s.out, fuel);
    UnaryStages(k, g, e, env, s);
    hide Eval, Here, Lowers, Go, Monadic, Grows;
    var r1 := LowerExpr(g, e.sub);
    n := SimExpr(k, g, e.sub, env, fuel, s);
    var s1 := Go(k, s, n);
    var v := Eval(k.w, e.sub, env, s.out, fuel);
    if e.uop.Pos? {
      MonadicPos(k.w.ops, e.sub.Type());
    } else if v.Value? {
      SimMonadic(k, r1.g, e.uop, e.sub.Type(), r1.operand.value, v.v, s1, fuel);
      OpOutcome(r1.g, LowerExpr(g, e), s1, Go(k, s1, 1), Monadic(k.w.ops, e.uop, e.sub.Type(), v.v), 1, fuel);
      OutcomeLater(g, r1.g, LowerExpr(g, e), s, s1, Go(k, s1, 1), Eval(k.w, e, env, s.out, fuel), n, 1, fuel);
      GoTwice(k, s, n, 1);
      n := n + 1;
    } else {
      AlongSelf(g, s);
      OutcomeHalted(g, r1, s, g, LowerExpr(g, e), s, s1, v, n, fuel);
    }
  }

  lemma MonadicPos(ops: FloatOps, t: TType)
    ensures forall v :: Monadic(ops, Pos, t, v) == Good(v)
  {
  }

  lemma UnaryStages(k: Context, g: Gen, e: Expr, env: Env, s: State)
    requires e.Unary? && Here(k, g, env, s) && Lowers(k, g, e)
    ensures var r := LowerExpr(g, e.sub);
      && Lowers(k, g, e.sub) && r.operand.Some? && Grows(g, r.g) && Open(r.g)
      && NextLabel(g) <= NextLabel(r.g) <= NextLabel(LowerExpr(g, e).g)
      && (!e.uop.Pos? ==>
            var h := LowerMonadic(r.g, e.uop, e.sub.Type(), r.operand.value);
            LowerExpr(g, e) == h && h.g.ok && Extends(h.g.code, k.c))
  {
    ShapeExpr(g, e.sub, k.lo);
    var r := LowerExpr(g, e.sub);
    if !e.uop.Pos? {
      ShapeMonadic(r.g, e.uop, e.sub.Type(), r.operand.value, k.lo);
      ExtendsLater(k.c, r.g, LowerExpr(g, e).g);
    }
  }

  lemma SimMonadic(k: Context, g: Gen, op: UnaryOp, t: TType, a: Operand, v: Val, s: State, fuel: nat)
    requires !op.Pos? && At(g, s) && Open(g) && HasValue(g, s.cur, a, v)
    requires LowerMonadic(g, op, t, a).g.ok && Extends(LowerMonadic(g, op, t, a).g.code, k.c)
    ensures OpDone(g, LowerMonadic(g, op, t, a), s, Go(k, s, 1), Monadic(k.w.ops, op, t, v), 1, fuel)
  {
    hide Along, HaltsIn, Terminated, Extends, Run, Keeps, KeepsCells;
    var lt := if op.Not? then I1 else if t == FLOAT then F32T else I32T;
    var un := if op.Not? then NotI else if t == FLOAT then NegF else NegI;
    var i := Op1(NextReg(g), un, a);
    match Monadic(k.w.ops, op, t, v)
    case Good(x) => StepOp1(k.c, k.w.ops, g, lt, un, a, v, x, s);
    case Bad(_) =>
      FetchInstr(k.c, k.w.ops, g.(code := g.code.(regs := g.code.regs + [lt])), i, s);
      HaltsHere(g, LowerMonadic(g, op, t, a).g, s, Go(k, s, 1));
  }

  lemma HaltsHere(g: Gen, h: Gen, s: State, t: State)
    requires t.callers == s.callers && t.cur.trail == s.cur.trail
    ensures HaltsIn(g, h, s, t)
  {
  }

  // ----- arithmetic and comparisons -----

  lemma BinaryStages(k: Context, g: Gen, e: Expr)
    requires e.Binary? && !e.op.And? && !e.op.Or? && Ready(g, k.lo) && Lowers(k, g, e)
    ensures var r1 := LowerExpr(g, e.lhs);
      && ExprShape(g, r1, k.lo) && r1.operand.Some? && Lowers(k, g, e.lhs)
      && var r2 := LowerExpr(r1.g, e.rhs);
      && ExprShape(r1.g, r2, k.lo) && r2.operand.Some? && Lowers(k, r1.g, e.rhs) && Grows(g, r2.g)
      && var r := LowerStrict(r2.g, IsFloatOp(e.lhs, e.rhs), e.op, r1.operand.value, r2.operand.value);
      && LowerExpr(g, e) == r && Extends(r.g.code, k.c)
      && NextLabel(g) <= NextLabel(r1.g) <= NextLabel(r2.g) <= NextLabel(r.g)
  {
    var r1 := LowerExpr(g, e.lhs);
    ShapeExpr(g, e.lhs, k.lo);
    var r2 := LowerExpr(r1.g, e.rhs);
    ShapeExpr(r1.g, e.rhs, k.lo);
    ShapeStrict(r2.g, IsFloatOp(e.lhs, e.rhs), e.op, r1.operand.value, r2.operand.value, k.lo);
    ExtendsLater(k.c, r2.g, LowerExpr(g, e).g);
    ExtendsLater(k.c, r1.g, r2.g);
    GrowsTransitive(g, r1.g, r2.g);
  }

  lemma {:induction false} SimBinary(k: Context, g: Gen, e: Expr, env: Env, fuel: nat, s: State) returns (n: nat)
    requires e.Binary? && !e.op.And? && !e.op.Or? && Here(k, g, env, s) && Lowers(k, g, e) && NamesIn(e) <= env.Keys
    ensures ExprOutcome(g, LowerExpr(g, e), s, Go(k, s, n), Eval(k.w, e, env, s.out, fuel), n, fuel)
    decreases fuel, 1, e, 2
  {
    EvalStrict(k.w, e, env, s.out, fuel);
    BinaryStages(k, g, e);
    hide Eval, Here, Lowers, Go, Strict, LowerStrict, LowerExpr, ExprShape, ExprDone, Extends, ExprOutcome;
    var r, r1 := LowerExpr(g, e), LowerExpr(g, e.lhs);
    n := SimExpr(k, g, e.lhs, env, fuel, s);
    var s1 := Go(k, s, n);
    var a := Eval(k.w, e.lhs, env, s.out, fuel);
    if a.Value? {
      OutcomeValue(g, r1, s, s1, a, n, fuel);
      HereAfter(k, g, r1, env, s, s1, a.v);
      var m := SimRhs(k, g, e, env, fuel, a.v, s, s1, r, Eval(k.w, e, env, s.out, fuel));
      n := Sequel(k, g, r, s, s, Eval(k.w, e, env, s.out, fuel), n, m, fuel);
    } else {
      AlongSelf(g, s);
      OutcomeHalted(g, r1, s, g, r, s, s1, a, n, fuel);
    }
  }

  function AfterLhs(w: World, e: Expr, env: Env, a: Val, out: seq<Event>, fuel: nat): ExprResult
    requires e.Binary? && !e.op.And? && !e.op.Or?
  {
    var r := Eval(w, e.rhs, env, out, fuel);
    if r.Halted? then r else Conclude(Strict(w.ops, IsFloatOp(e.lhs, e.rhs), e.op, a, r.v), r.out)
  }

  lemma {:induction false} SimRhs(k: Context, g: Gen, e: Expr, env: Env, fuel: nat, a: Val, s: State, s1: State,
                                  r: Lowered, res: ExprResult)
    returns (n: nat)
    requires e.Binary? && !e.op.And? && !e.op.Or? && Ready(g, k.lo) && Lowers(k, g, e) && NamesIn(e) <= env.Keys
    requires ExprDone(g, LowerExpr(g, e.lhs), s, s1, a) && Here(k, LowerExpr(g, e.lhs).g, env, s1)
    requires r == LowerExpr(g, e) && res == AfterLhs(k.w, e, env, a, s1.out, fuel)
    ensures ExprOutcome(g, r, s, Go(k, s1, n), res, n, fuel)
    decreases fuel, 1, e, 0
  {
    assert Lowers(k, LowerExpr(g, e.lhs).g, e.rhs) by { BinaryStages(k, g, e); }
    BinaryLabels(k, g, e);
    hide Eval, Here, Lowers, Go, Strict, LowerStrict, LowerExpr, ExprShape, ExprDone, Extends, Ready, ExprOutcome;
    var r1 := LowerExpr(g, e.lhs);
    n := SimExpr(k, r1.g, e.rhs, env, fuel, s1);
    var s2 := Go(k, s1, n);
    var b := Eval(k.w, e.rhs, env, s1.out, fuel);
    if b.Value? {
      OutcomeValue(r1.g, LowerExpr(r1.g, e.rhs), s1, s2, b, n, fuel);
      var m := SimOperands(k, g, e, a, b.v, s, s1, s2, fuel);
      n := Sequel(k, g, r, s, s1, res, n, m, fuel);
    } else {
      DoneAlong(g, r1, s, s1, a);
      OutcomeHalted(r1.g, LowerExpr(r1.g, e.rhs), s1, g, r, s, s2, b, n, fuel);
    }
  }

  lemma BinaryLabels(k: Context, g: Gen, e: Expr)
    requires e.Binary? && !e.op.And? && !e.op.Or? && Ready(g, k.lo) && Lowers(k, g, e)
    ensures var r1 := LowerExpr(g, e.lhs);
      NextLabel(r1.g) <= NextLabel(LowerExpr(r1.g, e.rhs).g) <= NextLabel(LowerExpr(g, e).g)
  {
    BinaryStages(k, g, e);
  }

  /** Both operands have been evaluated. */
  lemma SimOperands(k: Context, g: Gen, e: Expr, a: Val, b: Val, s: State, s1: State, s2: State, fuel: nat)
    returns (n: nat)
    requires e.Binary? && !e.op.And? && !e.op.Or? && Ready(g, k.lo) && Lowers(k, g, e)
    requires ExprDone(g, LowerExpr(g, e.lhs), s, s1, a)
    requires ExprDone(LowerExpr(g, e.lhs).g, LowerExpr(LowerExpr(g, e.lhs).g, e.rhs), s1, s2, b)
    ensures ExprOutcome(g, LowerExpr(g, e), s, Go(k, s2, n),
              Conclude(Strict(k.w.ops, IsFloatOp(e.lhs, e.rhs), e.op, a, b), s2.out), n, fuel)
  {
    BinaryStages(k, g, e);
    hide Extends, Terminated, Strict, LowerStrict, LowerExpr, Run, Keeps, KeepsCells, HasValue;
    var r1 := LowerExpr(g, e.lhs);
    var r2 := LowerExpr(r1.g, e.rhs);
    ValueKept(r1.g, r2.g, r1.operand.value, a, s1, s2);
    KeepsAfter(g, r1.g, s, s1, s2);
    AlongThen(g, r1.g, r2.g, s, s1, s2);
    n := SimStrict(k.c, k.w.ops, r2.g, IsFloatOp(e.lhs, e.rhs), e.op, r1.operand.value, r2.operand.value, a, b, s2, fuel, k.lo);
    var res := Strict(k.w.ops, IsFloatOp(e.lhs, e.rhs), e.op, a, b);
    OpOutcome(r2.g, LowerExpr(g, e), s2, Go(k, s2, n), res, n, fuel);
    OutcomeLater(g, r2.g, LowerExpr(g, e), s, s2, Go(k, s2, n), Conclude(res, s2.out), 0, n, fuel);
  }

  // ----- && and || -----

  lemma LogicalStages(k: Context, g: Gen, e: Expr)
    requires e.Binary? && (e.op.And? || e.op.Or?) && Ready(g, k.lo) && LowerExpr(g, e).g.ok
    ensures var r1 := LowerExpr(g, e.lhs);
      && ExprShape(g, r1, k.lo) && r1.g.ok && r1.operand.Some?
      && var g2 := StartShortCircuit(r1.g, e.op, r1.operand.value);
      && Ready(g2, k.lo) && g2.insert == NextLabel(r1.g) && InsertBlock(g2) == [] && g2.scopes == g.scopes
      && Grows(g, g2) && Grows(r1.g, g2)
      && var r3 := LowerExpr(g2, e.rhs);
      && ExprShape(g2, r3, k.lo) && r3.g.ok && r3.operand.Some?
      && Underway(r1.g, r3.g, {NextLabel(r1.g) + 1}, k.lo) && Waiting(r1.g, r3.g, NextLabel(r1.g) + 1)
      && LowerExpr(g, e) == EndShortCircuit(r3.g, NextReg(r1.g), NextLabel(r1.g) + 1, r3.operand.value)
  {
    hide Settled, Tidy, LowerExpr, StartShortCircuit, EndShortCircuit;
    ShapeExpr(g, e, k.lo);
    LogicalEquation(g, e);
    var r1 := LowerExpr(g, e.lhs);
    ShapeExpr(g, e.lhs, k.lo);
    var g2 := StartShortCircuit(r1.g, e.op, r1.operand.value);
    ShapeStartShortCircuit(r1.g, e.op, r1.operand.value, k.lo);
    var r3 := LowerExpr(g2, e.rhs);
    ShapeExpr(g2, e.rhs, k.lo);
    ExprNested(r1.g, g2, r3, {NextLabel(r1.g) + 1}, k.lo);
    GrowsTransitive(g, r1.g, g2);
    StartIsEmpty(r1.g, e.op, r1.operand.value, k.lo);
  }

  lemma StartIsEmpty(g: Gen, op: BinaryOp, v: Operand, lo: nat)
    requires Ready(g, lo)
    ensures InsertBlock(StartShortCircuit(g, op, v)) == []
  {
  }

  /** The pieces of a short-circuit operator, by name. */
  function LeftOf(g: Gen, e: Expr): Lowered
    requires e.Binary?
  {
    LowerExpr(g, e.lhs)
  }

  function RightStart(g: Gen, e: Expr): Gen
    requires e.Binary?
  {
    var r1 := LeftOf(g, e);
    if r1.operand.Some? then StartShortCircuit(r1.g, e.op, r1.operand.value) else r1.g
  }

  function SlotOfLeft(g: Gen, e: Expr): nat
    requires e.Binary?
  {
    NextReg(LeftOf(g, e).g)
  }

  function RightLabel(g: Gen, e: Expr): nat
    requires e.Binary?
  {
    NextLabel(LeftOf(g, e).g)
  }

  /** The blocks jumped to since `s` in its frame. */
  function Since(s: State, t: State): seq<nat> {
    var f := FrameAt(t, |s.callers|);
    if |s.cur.trail| <= |f.trail| then f.trail[|s.cur.trail|..] else []
  }

  /** From `s` on its frame has been in the block of the right side. */
  predicate EntersRight(g: Gen, e: Expr, s: State, t: State)
    requires e.Binary?
  {
    RightLabel(g, e) in Since(s, t)
  }

  /** The right side is evaluated exactly if the left side does not decide. */
  predicate Undecided(op: BinaryOp, a: Val) { a.BoolV? && a.b != op.Or? }

  lemma LeftOnly(g: Gen, e: Expr, s: State, t: State)
    requires e.Binary? && HaltsIn(g, LeftOf(g, e).g, s, t)
    ensures !EntersRight(g, e, s, t)
  {
  }

  /** A later moment of the frame, or of a function called from it. */
  lemma EntersLater(g: Gen, e: Expr, s: State, t: State, u: State)
    requires e.Binary? && t.callers == s.callers && s.cur.trail <= t.cur.trail
    requires t.cur.trail <= FrameAt(u, |s.callers|).trail && EntersRight(g, e, s, t)
    ensures EntersRight(g, e, s, u)
  {
    var a, b := t.cur.trail, FrameAt(u, |s.callers|).trail;
    assert a[|s.cur.trail|..] <= b[|s.cur.trail|..];
  }

  /** The merge block as the insert block, still empty. */
  function Merge(g: Gen, e: Expr): Gen
    requires e.Binary?
  {
    var r3 := LowerExpr(RightStart(g, e), e.rhs);
    if r3.operand.Some? then MergePoint(r3.g, SlotOfLeft(g, e), RightLabel(g, e) + 1, r3.operand.value) else r3.g
  }

  lemma LeftStages(k: Context, g: Gen, e: Expr)
    requires e.Binary? && (e.op.And? || e.op.Or?) && Ready(g, k.lo) && Lowers(k, g, e)
    ensures var r1 := LeftOf(g, e);
      && ExprShape(g, r1, k.lo) && r1.operand.Some? && Lowers(k, g, e.lhs)
      && RightStart(g, e) == StartShortCircuit(r1.g, e.op, r1.operand.value)
      && Extends(RightStart(g, e).code, k.c)
  {
    LogicalExtends(k, g, e);
    LogicalStages(k, g, e);
  }

  /** The new labels, in the order in which the visit makes them. */
  lemma LogicalLabels(k: Context, g: Gen, e: Expr)
    requires e.Binary? && (e.op.And? || e.op.Or?) && Ready(g, k.lo) && Lowers(k, g, e)
    ensures var l := RightLabel(g, e);
      && NextLabel(g) <= l && l + 2 == NextLabel(RightStart(g, e)) <= NextLabel(LowerExpr(RightStart(g, e), e.rhs).g)
      && NextLabel(LowerExpr(RightStart(g, e), e.rhs).g) == NextLabel(Merge(g, e)) == NextLabel(LowerExpr(g, e).g)
  {
    hide LowerExpr, StartShortCircuit, Extends, Settled, Tidy, Terminated, Underway;
    LogicalStages(k, g, e);
    StartLabels(LeftOf(g, e).g, e.op, LeftOf(g, e).operand.value);
  }

  lemma StartLabels(g: Gen, op: BinaryOp, v: Operand)
    ensures NextLabel(StartShortCircuit(g, op, v)) == NextLabel(g) + 2
  {
  }

  lemma RightStages(k: Context, g: Gen, e: Expr)
    requires e.Binary? && (e.op.And? || e.op.Or?) && Ready(g, k.lo) && Lowers(k, g, e)
    ensures var g2 := RightStart(g, e);
      && Ready(g2, k.lo) && g2.insert == RightLabel(g, e) && InsertBlock(g2) == []
      && g2.scopes == g.scopes && Grows(g, g2) && Lowers(k, g2, e.rhs)
  {
    LogicalExtends(k, g, e);
    LogicalStages(k, g, e);
  }

  lemma MergeStages(k: Context, g: Gen, e: Expr)
    requires e.Binary? && (e.op.And? || e.op.Or?) && Ready(g, k.lo) && Lowers(k, g, e)
    ensures var g2, gm := RightStart(g, e), Merge(g, e);
      var r3 := LowerExpr(g2, e.rhs);
      && gm.insert == RightLabel(g, e) + 1 && Open(gm) && InsertBlock(gm) == [] && Grows(g, gm)
      && LowerExpr(g, e) == ReadBack(gm, SlotOfLeft(g, e)) && Extends(LowerExpr(g, e).g.code, k.c)
      && Grows(g, g2) && Grows(g2, r3.g) && Open(r3.g) && r3.operand.Some?
      && var stored := Emit(r3.g, Store(r3.operand.value, SlotOfLeft(g, e)));
      && Open(stored) && Extends(stored.code, k.c) && Extends(Emit(stored, Br(RightLabel(g, e) + 1)).code, k.c)
      && NextReg(g) <= SlotOfLeft(g, e) < NextReg(g2)
  {
    LogicalStages(k, g, e);
    hide Settled, Tidy, Extends, LowerExpr, StartShortCircuit, Underway, Waiting, Ready, Terminated;
    var r1 := LowerExpr(g, e.lhs);
    var r3 := LowerExpr(RightStart(g, e), e.rhs);
    EndStages(k.c, r1.g, r3.g, NextReg(r1.g), NextLabel(r1.g) + 1, r3.operand.value, k.lo);
    GrowsTransitive(g, r1.g, Merge(g, e));
    GrowsRegs(g, r1.g);
    SlotIsNew(r1.g, e.op, r1.operand.value);
  }

  lemma SlotIsNew(g: Gen, op: BinaryOp, v: Operand)
    ensures NextReg(StartShortCircuit(g, op, v)) == NextReg(g) + 1
  {
  }

  lemma LogicalExtends(k: Context, g: Gen, e: Expr)
    requires e.Binary? && (e.op.And? || e.op.Or?) && Ready(g, k.lo) && Lowers(k, g, e)
    ensures LowerExpr(g, e.lhs).g.ok && Extends(LowerExpr(g, e.lhs).g.code, k.c) && Extends(RightStart(g, e).code, k.c)
    ensures LowerExpr(RightStart(g, e), e.rhs).g.ok && Extends(LowerExpr(RightStart(g, e), e.rhs).g.code, k.c)
  {
    LogicalStages(k, g, e);
    RightExtends(k, g, e);
    hide Settled, Tidy, Extends, LowerExpr, StartShortCircuit, EndShortCircuit, Underway, Waiting, Ready, Terminated;
    var r1, g2 := LowerExpr(g, e.lhs), RightStart(g, e);
    ExtendsLater(k.c, g2, LowerExpr(g2, e.rhs).g);
    ExtendsLater(k.c, r1.g, g2);
  }

  lemma RightExtends(k: Context, g: Gen, e: Expr)
    requires e.Binary? && (e.op.And? || e.op.Or?) && Ready(g, k.lo) && Lowers(k, g, e)
    ensures Extends(LowerExpr(RightStart(g, e), e.rhs).g.code, k.c)
  {
    LogicalStages(k, g, e);
    hide Settled, Tidy, Extends, LowerExpr, StartShortCircuit, EndShortCircuit, Underway, Waiting, Ready, Terminated;
    var r1 := LowerExpr(g, e.lhs);
    var r3 := LowerExpr(RightStart(g, e), e.rhs);
    EndStages(k.c, r1.g, r3.g, NextReg(r1.g), NextLabel(r1.g) + 1, r3.operand.value, k.lo);
    ExtendsEmit(k.c, r3.g, Store(r3.operand.value, NextReg(r1.g)));
  }

  lemma {:induction false} SimLogical(k: Context, g: Gen, e: Expr, env: Env, fuel: nat, s: State) returns (n: nat)
    requires e.Binary? && (e.op.And? || e.op.Or?) && Here(k, g, env, s) && Lowers(k, g, e) && NamesIn(e) <= env.Keys
    ensures ExprOutcome(g, LowerExpr(g, e), s, Go(k, s, n), Eval(k.w, e, env, s.out, fuel), n, fuel)
    ensures var a := Eval(k.w, e.lhs, env, s.out, fuel);
      EntersRight(g, e, s, Go(k, s, n)) <==> a.Value? && Undecided(e.op, a.v)
    decreases fuel, 1, e, 2
  {
    EvalLogical(k.w, e, env, s.out, fuel);
    LeftStages(k, g, e);
    LogicalLabels(k, g, e);
    hide Eval, Here, Lowers, Go, LowerExpr, ExprShape, ExprDone, Extends, ExprOutcome, RightStart, EntersRight,
      HaltsIn, Along, Merge;
    var r, r1, res := LowerExpr(g, e), LeftOf(g, e), Eval(k.w, e, env, s.out, fuel);
    n := SimExpr(k, g, e.lhs, env, fuel, s);
    var s1 := Go(k, s, n);
    var a := Eval(k.w, e.lhs, env, s.out, fuel);
    if a.Value? {
      OutcomeValue(g, r1, s, s1, a, n, fuel);
      var m := SimAfterLeft(k, g, e, env, fuel, a.v, s, s1, r, res);
      n := Sequel(k, g, r, s, s, res, n, m, fuel);
    } else {
      AlongSelf(g, s);
      OutcomeHaltsIn(g, r1, s, s1, a, n, fuel);
      LeftOnly(g, e, s, s1);
      OutcomeHalted(g, r1, s, g, r, s, s1, a, n, fuel);
    }
  }

  /** What `&&` or `||` gives once its left side is known. */
  function AfterLeft(w: World, e: Expr, env: Env, a: Val, out: seq<Event>, fuel: nat): ExprResult
    requires e.Binary?
  {
    if !a.BoolV? then Halted(IllTyped, out)
    else if a.b == e.op.Or? then Value(a, out)
    else
      var r := Eval(w, e.rhs, env, out, fuel);
      if r.Halted? || r.v.BoolV? then r else Halted(IllTyped, r.out)
  }

  lemma {:induction false} SimAfterLeft(k: Context, g: Gen, e: Expr, env: Env, fuel: nat, a: Val, s: State, s1: State,
                                        r: Lowered, res: ExprResult)
    returns (n: nat)
    requires e.Binary? && (e.op.And? || e.op.Or?) && Here(k, g, env, s) && Lowers(k, g, e) && NamesIn(e) <= env.Keys
    requires ExprDone(g, LeftOf(g, e), s, s1, a)
    requires r == LowerExpr(g, e) && res == AfterLeft(k.w, e, env, a, s1.out, fuel)
    ensures ExprOutcome(g, r, s, Go(k, s1, n), res, n, fuel)
    ensures EntersRight(g, e, s, Go(k, s1, n)) <==> Undecided(e.op, a)
    decreases fuel, 1, e, 1
  {
    var m, s2 := SimBranch(k, g, e, env, a, s, s1);
    LogicalLabels(k, g, e);
    hide Eval, Here, Lowers, Go, LowerExpr, ExprShape, ExprDone, Extends, Keeps, KeepsCells, ExprOutcome,
      EntersRight, HaltsIn, Along;
    if a.BoolV? {
      n := SimLogicalRest(k, g, e, env, fuel, a, |s1.cur.cells|, s, s2, r, res);
      n := Sequel(k, g, r, s, s1, res, m, n, fuel);
    } else {
      n := m;
      LeftOnly(g, e, s, s2);
      MoreLabels(g, LeftOf(g, e).g, r.g, s, s2);
      Faults(g, r, s, s2, s1.out, n, fuel);
    }
  }

  lemma MoreLabels(g: Gen, h: Gen, k: Gen, s: State, t: State)
    requires HaltsIn(g, h, s, t) && NextLabel(h) <= NextLabel(k)
    ensures HaltsIn(g, k, s, t)
  {
  }

  lemma Faults(g: Gen, r: Lowered, s: State, t: State, out: seq<Event>, n: nat, fuel: nat)
    requires t.status == Faulted(TypeMismatch) && t.out == out && HaltsIn(g, r.g, s, t)
    ensures ExprOutcome(g, r, s, t, Halted(IllTyped, out), n, fuel)
  {
  }

  /** The branch on the left side's value. */
  lemma SimBranch(k: Context, g: Gen, e: Expr, env: Env, a: Val, s: State, s1: State) returns (n: nat, t: State)
    requires e.Binary? && (e.op.And? || e.op.Or?) && Here(k, g, env, s) && Lowers(k, g, e)
    requires ExprDone(g, LeftOf(g, e), s, s1, a)
    ensures t == Go(k, s1, n) && t.out == s1.out
    ensures !a.BoolV? ==> t.status == Faulted(TypeMismatch) && HaltsIn(g, LeftOf(g, e).g, s, t)
    ensures a.BoolV? ==> Along(g, RightStart(g, e), s, t) && (EntersRight(g, e, s, t) <==> Undecided(e.op, a))
    ensures a.BoolV? ==>
      && Keeps(g, s, t) && KeepsCells(s, t) && Saved(t.cur, SlotOfLeft(g, e), |s1.cur.cells|, a)
      && AtStart(t, if a.b == e.op.Or? then RightLabel(g, e) + 1 else RightLabel(g, e))
      && |s.cur.cells| <= |s1.cur.cells|
  {
    hide Extends, LowerExpr, Match, StartShortCircuit, Terminated, Along, HaltsIn, EntersRight, Inside, Run,
      RightStart, Merge;
    LeftStages(k, g, e);
    var r1 := LeftOf(g, e);
    SimStartShortCircuit(k.c, k.w.ops, r1.g, e.op, r1.operand.value, a, s1, k.lo);
    n := 3;
    t := Go(k, s1, 3);
    DoneAlong(g, r1, s, s1, a);
    if a.BoolV? {
      KeepsAfter(g, r1.g, s, s1, t);
      LogicalLabels(k, g, e);
      BranchTrail(g, e, a, s, s1, t);
    } else {
      StillAlong(g, r1.g, s, s1, t);
    }
  }

  lemma StillAlong(g: Gen, h: Gen, s: State, s1: State, t: State)
    requires Along(g, h, s, s1) && t.callers == s1.callers && t.cur.trail == s1.cur.trail
    ensures HaltsIn(g, h, s, t) && Along(g, h, s, t)
  {
  }

  /** What the branch adds to the trail. */
  lemma BranchTrail(g: Gen, e: Expr, a: Val, s: State, s1: State, t: State)
    requires e.Binary? && a.BoolV? && Along(g, LeftOf(g, e).g, s, s1) && t.callers == s1.callers
    requires NextLabel(g) <= RightLabel(g, e) && RightLabel(g, e) + 2 == NextLabel(RightStart(g, e))
    requires t.cur.trail == s1.cur.trail + [if a.b == e.op.Or? then RightLabel(g, e) + 1 else RightLabel(g, e)]
    ensures Along(g, RightStart(g, e), s, t) && (EntersRight(g, e, s, t) <==> Undecided(e.op, a))
  {
    hide RightStart, LowerExpr;
    var n := |s.cur.trail|;
    assert t.cur.trail[n..] == s1.cur.trail[n..] + [t.cur.trail[|s1.cur.trail|]];
    assert forall l :: l in s1.cur.trail[n..] ==> l < RightLabel(g, e);
  }

  /** From the branch on: the right side is entered exactly if the interpreter evaluates it. */
  lemma {:induction false} SimLogicalRest(k: Context, g: Gen, e: Expr, env: Env, fuel: nat, a: Val, cell: nat,
                                          s: State, s2: State, r: Lowered, res: ExprResult)
    returns (n: nat)
    requires e.Binary? && (e.op.And? || e.op.Or?) && Here(k, g, env, s) && Lowers(k, g, e) && NamesIn(e) <= env.Keys
    requires a.BoolV? && Saved(s2.cur, SlotOfLeft(g, e), cell, a) && |s.cur.cells| <= cell
    requires AtStart(s2, if a.b == e.op.Or? then RightLabel(g, e) + 1 else RightLabel(g, e))
    requires Keeps(g, s, s2) && KeepsCells(s, s2)
    requires Along(g, RightStart(g, e), s, s2) && (EntersRight(g, e, s, s2) <==> Undecided(e.op, a))
    requires r == LowerExpr(g, e) && res == AfterLeft(k.w, e, env, a, s2.out, fuel)
    ensures ExprOutcome(g, r, s, Go(k, s2, n), res, n, fuel)
    ensures EntersRight(g, e, s, Go(k, s2, n)) <==> Undecided(e.op, a)
    decreases fuel, 1, e, 0
  {
    LogicalLabels(k, g, e);
    if a.b == e.op.Or? {
      n := SimSkip(k, g, e, a, cell, s, s2, fuel, r);
    } else {
      var g2 := RightStart(g, e);
      EnterRight(k, g, e, env, s, s2);
      hide Eval, Here, Lowers, Go, LowerExpr, ExprShape, ExprDone, Extends, ExprOutcome, Keeps, KeepsCells,
        EntersRight, HaltsIn, Merge;
      n := SimExpr(k, g2, e.rhs, env, fuel, s2);
      var s3 := Go(k, s2, n);
      var b := Eval(k.w, e.rhs, env, s2.out, fuel);
      if b.Value? {
        OutcomeValue(g2, LowerExpr(g2, e.rhs), s2, s3, b, n, fuel);
        var m := SimRight(k, g, e, a, b.v, cell, s, s2, s3, fuel, r, res);
        DoneAlong(g2, LowerExpr(g2, e.rhs), s2, s3, b.v);
        EntersLater(g, e, s, s2, Go(k, s3, m));
        n := Sequel(k, g, r, s, s2, res, n, m, fuel);
      } else {
        OutcomeHaltsIn(g2, LowerExpr(g2, e.rhs), s2, s3, b, n, fuel);
        HaltsAfter(g2, LowerExpr(g2, e.rhs).g, s2, s3);
        EntersLater(g, e, s, s2, s3);
        OutcomeHalted(g2, LowerExpr(g2, e.rhs), s2, g, r, s, s3, b, n, fuel);
      }
    }
  }

  lemma HaltsAfter(g: Gen, h: Gen, s: State, t: State)
    requires HaltsIn(g, h, s, t)
    ensures s.cur.trail <= FrameAt(t, |s.callers|).trail
  {
  }

  lemma EnterRight(k: Context, g: Gen, e: Expr, env: Env, s: State, s2: State)
    requires e.Binary? && (e.op.And? || e.op.Or?) && Here(k, g, env, s) && Lowers(k, g, e)
    requires AtStart(s2, RightLabel(g, e)) && Keeps(g, s, s2) && KeepsCells(s, s2)
    ensures Here(k, RightStart(g, e), env, s2) && Lowers(k, RightStart(g, e), e.rhs)
  {
    RightStages(k, g, e);
    HereLater(k, g, RightStart(g, e), env, s, s2);
  }

  /** The left side decides: straight to the merge block. */
  lemma SimSkip(k: Context, g: Gen, e: Expr, a: Val, cell: nat, s: State, s2: State, fuel: nat, r: Lowered) returns (n: nat)
    requires e.Binary? && (e.op.And? || e.op.Or?) && Ready(g, k.lo) && Lowers(k, g, e)
    requires AtStart(s2, RightLabel(g, e) + 1) && a.BoolV?
    requires Keeps(g, s, s2) && KeepsCells(s, s2) && Saved(s2.cur, SlotOfLeft(g, e), cell, a)
    requires r == LowerExpr(g, e) && Along(g, RightStart(g, e), s, s2)
    ensures ExprOutcome(g, r, s, Go(k, s2, n), Value(a, s2.out), n, fuel)
    ensures EntersRight(g, e, s, Go(k, s2, n)) <==> EntersRight(g, e, s, s2)
  {
    LogicalLabels(k, g, e);
    MergeStages(k, g, e);
    hide Extends, Terminated, LowerExpr, HasValue, Keeps, KeepsCells, Merge;
    var gm := Merge(g, e);
    AlongMore(g, RightStart(g, e), gm, s, s2);
    StepReadBack(k.c, k.w.ops, gm, SlotOfLeft(g, e), cell, a, s2);
    n := 1;
    ExprLater(g, gm, r, s, s2, Go(k, s2, 1), a);
  }

  lemma AlongMore(g: Gen, h: Gen, k: Gen, s: State, t: State)
    requires Along(g, h, s, t) && NextLabel(h) <= NextLabel(k)
    ensures Along(g, k, s, t)
  {
  }

  /** The right side has been evaluated: save it, join, read it back. */
  lemma SimRight(k: Context, g: Gen, e: Expr, a: Val, b: Val, cell: nat, s: State, s2: State, s3: State, fuel: nat,
                 r: Lowered, res: ExprResult)
    returns (n: nat)
    requires e.Binary? && (e.op.And? || e.op.Or?) && Ready(g, k.lo) && Lowers(k, g, e)
    requires Saved(s2.cur, SlotOfLeft(g, e), cell, a)
    requires ExprDone(RightStart(g, e), LowerExpr(RightStart(g, e), e.rhs), s2, s3, b)
    requires Keeps(g, s, s2) && KeepsCells(s, s2) && |s.cur.cells| <= cell
    requires r == LowerExpr(g, e)
    requires res == if b.BoolV? then Value(b, s3.out) else Halted(IllTyped, s3.out)
    requires Along(g, RightStart(g, e), s, s2)
    ensures ExprOutcome(g, r, s, Go(k, s3, n), res, n, fuel)
    ensures Go(k, s3, n).callers == s.callers && s2.cur.trail <= Go(k, s3, n).cur.trail
  {
    var s4 := SimJoin(k, g, e, a, b, cell, s, s2, s3);
    MergeStages(k, g, e);
    LogicalLabels(k, g, e);
    hide Extends, Terminated, LowerExpr, HasValue, Keeps, KeepsCells, Merge, RightStart, Run, Grows, ReadBack,
      ExprDone, Along, HaltsIn;
    var gm := Merge(g, e);
    StepReadBack(k.c, k.w.ops, gm, SlotOfLeft(g, e), cell, b, s4);
    if b.BoolV? {
      ExprLater(g, gm, r, s, s4, Go(k, s4, 1), b);
    } else {
      StillAlong(g, gm, s, s4, Go(k, s4, 1));
      MoreLabels(g, gm, r.g, s, Go(k, s4, 1));
      Faults(g, r, s, Go(k, s4, 1), s3.out, 1, fuel);
    }
    n := Sequel(k, g, r, s, s3, res, 2, 1, fuel);
  }

  lemma SimJoin(k: Context, g: Gen, e: Expr, a: Val, b: Val, cell: nat, s: State, s2: State, s3: State) returns (t: State)
    requires e.Binary? && (e.op.And? || e.op.Or?) && Ready(g, k.lo) && Lowers(k, g, e)
    requires Saved(s2.cur, SlotOfLeft(g, e), cell, a)
    requires ExprDone(RightStart(g, e), LowerExpr(RightStart(g, e), e.rhs), s2, s3, b)
    requires Keeps(g, s, s2) && KeepsCells(s, s2) && |s.cur.cells| <= cell && Along(g, RightStart(g, e), s, s2)
    ensures Along(g, Merge(g, e), s, t) && s2.cur.trail <= t.cur.trail && t.callers == s.callers
    ensures t == Go(k, s3, 2) && t.out == s3.out
    ensures AtStart(t, RightLabel(g, e) + 1) && Saved(t.cur, SlotOfLeft(g, e), cell, b)
    ensures Keeps(g, s, t) && KeepsCells(s, t)
  {
    hide Extends, Terminated, LowerExpr, Merge, RightStart, Grows, Along, Run;
    MergeStages(k, g, e);
    var g2, slot := RightStart(g, e), SlotOfLeft(g, e);
    var r3 := LowerExpr(g2, e.rhs);
    SimSaveRight(k.c, k.w.ops, r3.g, slot, RightLabel(g, e) + 1, cell, r3.operand.value, a, b, s3);
    t := Go(k, s3, 2);
    KeepsAfter(g, g2, s, s2, s3);
    GrowsTransitive(g, g2, r3.g);
    KeepsAfter(g, r3.g, s, s3, t);
    CellsAppended(s, s3, t, cell);
    LogicalLabels(k, g, e);
    DoneAlong(g2, r3, s2, s3, b);
    JoinTrail(g, g2, r3.g, Merge(g, e), s, s2, s3, t, RightLabel(g, e) + 1);
  }

  lemma JoinTrail(g: Gen, h: Gen, m: Gen, k: Gen, s: State, s2: State, s3: State, t: State, l: nat)
    requires Along(g, h, s, s2) && Along(h, m, s2, s3) && NextLabel(m) <= NextLabel(k) && NextLabel(g) <= l < NextLabel(k)
    requires t.callers == s3.callers && t.cur.trail == s3.cur.trail + [l]
    ensures Along(g, k, s, t) && s2.cur.trail <= t.cur.trail && t.callers == s.callers
  {
    AlongThen(g, h, m, s, s2, s3);
  }

  /** Writing one of the newer cells. */
  lemma CellsAppended(s: State, t: State, u: State, cell: nat)
    requires KeepsCells(s, t) && |s.cur.cells| <= cell && |u.cur.cells| == |t.cur.cells|
    requires forall k :: 0 <= k < |t.cur.cells| && k != cell ==> u.cur.cells[k] == t.cur.cells[k]
    ensures KeepsCells(s, u)
  {
  }

  // ----- calls -----

  function CalleeOf(g: Gen, e: Expr): nat
    requires e.Call?
  {
    if e.callee in g.funcs then g.funcs[e.callee] else 0
  }

  function ArgsOf(k: Context, g: Gen, e: Expr): LoweredArgs
    requires e.Call?
  {
    var i := CalleeOf(g, e);
    if i < |k.w.p| && |e.args| == |k.w.p[i].params| then LowerArgs(g, e.args, ToLTypes(k.w.p[i].params))
    else LoweredArgs(g, [])
  }

  function CallResult(g: Gen, t: LType, i: nat, ops: seq<Operand>): Lowered {
    Lowered(EmitDef(g, t, CallFn(NextReg(g), i, ops)), Some(Reg(NextReg(g))))
  }

  ghost predicate LowersArgs(k: Context, g: Gen, args: seq<Expr>, params: seq<Param>)
    requires |args| == |params|
  {
    LowerArgs(g, args, ToLTypes(params)).g.ok && Extends(LowerArgs(g, args, ToLTypes(params)).g.code, k.c)
  }

  lemma CallStages(k: Context, g: Gen, e: Expr, env: Env, s: State)
    requires e.Call? && Here(k, g, env, s) && Lowers(k, g, e)
    ensures var i, r := CalleeOf(g, e), ArgsOf(k, g, e);
      && i < |k.w.p| && i < |k.c.fns| && FindFunction(k.w.p, e.callee) == Some(i)
      && |e.args| == |k.w.p[i].params|
      && ArgsShape(g, r, |e.args|, k.lo) && LowersArgs(k, g, e.args, k.w.p[i].params)
      && LowerExpr(g, e) == CallResult(r.g, ToLType(k.w.p[i].ty), i, r.operands)
      && Extends(LowerExpr(g, e).g.code, k.c) && Linked(k.w, k.c)
      && NextLabel(r.g) == NextLabel(LowerExpr(g, e).g)
  {
    ResolvedCall(k.w, k.c, g, k.ret, e.callee);
    var i, r := CalleeOf(g, e), ArgsOf(k, g, e);
    ShapeArgs(g, e.args, ToLTypes(k.w.p[i].params), k.lo);
    ShapeDef(r.g, ToLType(k.w.p[i].ty), CallFn(NextReg(r.g), i, r.operands), k.lo);
    ExtendsLater(k.c, r.g, LowerExpr(g, e).g);
  }

  lemma {:induction false} SimCall(k: Context, g: Gen, e: Expr, env: Env, fuel: nat, s: State) returns (n: nat)
    requires e.Call? && Here(k, g, env, s) && Lowers(k, g, e) && NamesIn(e) <= env.Keys
    ensures ExprOutcome(g, LowerExpr(g, e), s, Go(k, s, n), Eval(k.w, e, env, s.out, fuel), n, fuel)
    decreases fuel, 1, e, 2
  {
    CallStages(k, g, e, env, s);
    var i := CalleeOf(g, e);
    EvalCall(k.w, e, env, s.out, fuel, i);
    hide Eval, Here, Lowers, Go, LowerExpr, ArgsShape, ArgsDone, Extends, ExprOutcome, EvalArgs, CallFunction,
      LowerArgs, Linked, LowersArgs, ArgsOf, CalleeOf;
    var r, res := LowerExpr(g, e), Eval(k.w, e, env, s.out, fuel);
    n := SimArgs(k, g, e.args, k.w.p[i].params, env, fuel, s);
    var s1 := Go(k, s, n);
    var a := EvalArgs(k.w, e.args, k.w.p[i].params, env, s.out, fuel);
    if a.Arguments? {
      var m := SimTransfer(k, g, e, i, a.vs, fuel, s, s1, r, res);
      n := Sequel(k, g, r, s, s, res, n, m, fuel);
    } else {
      ArgsHalt(ArgsOf(k, g, e), g, r, s, s1, a, n, fuel);
    }
  }

  lemma ArgsHalt(r1: LoweredArgs, g: Gen, r: Lowered, s: State, t: State, res: ArgsResult, n: nat, fuel: nat)
    requires ArgsOutcome(g, r1, s, t, res, n, fuel) && res.ArgsHalted? && NextLabel(r1.g) <= NextLabel(r.g)
    ensures ExprOutcome(g, r, s, t, Halted(res.why, res.out), n, fuel)
  {
  }

  /** The arguments are known: the call, the callee's run and the return. */
  lemma {:induction false} SimTransfer(k: Context, g: Gen, e: Expr, i: nat, vs: seq<Val>, fuel: nat, s: State, s1: State,
                                       r: Lowered, res: ExprResult)
    returns (n: nat)
    requires e.Call? && i < |k.w.p| && i < |k.c.fns| && Linked(k.w, k.c) && |vs| == |k.w.p[i].params|
    requires ArgsShape(g, ArgsOf(k, g, e), |vs|, k.lo) && ArgsDone(g, ArgsOf(k, g, e), s, s1, vs)
    requires var a := ArgsOf(k, g, e); r == CallResult(a.g, ToLType(k.w.p[i].ty), i, a.operands)
    requires Extends(r.g.code, k.c)
    requires res == CallFunction(k.w, i, vs, s1.out, fuel)
    ensures ExprOutcome(g, r, s, Go(k, s1, n), res, n, fuel)
    decreases fuel, 1, e, 1
  {
    var a, t := ArgsOf(k, g, e), ToLType(k.w.p[i].ty);
    StepCall(k.c, k.w.ops, a.g, t, i, a.operands, vs, s1);
    var s2 := Go(k, s1, 1);
    hide Go, Extends, Linked, CallFunction, ArgsOf, ArgsShape, ExprOutcome, CallResult;
    n := SimCallee(k.w, k.c, i, vs, fuel, s2);
    var s3 := Go(k, s2, n);
    n := SimBack(k, g, a, i, vs, n, fuel, s, s1, s2, s3, r, res);
  }

  /** The context of the body of function `i`. */
  function BodyContext(w: World, c: Code, i: nat): Context
    requires i < |w.p|
  {
    Context(w, c, w.p[i].ty, NextLabel(LowerProgram(w.p[..i])))
  }

  /** From the callee's entry, at `s2`, back to the caller. */
  lemma SimBack(k: Context, g: Gen, a: LoweredArgs, i: nat, vs: seq<Val>, m: nat, fuel: nat, s: State, s1: State, s2: State, s3: State,
                r: Lowered, res: ExprResult)
    returns (n: nat)
    requires i < |k.w.p| && ArgsShape(g, a, |vs|, k.lo) && ArgsDone(g, a, s, s1, vs)
    requires r == CallResult(a.g, ToLType(k.w.p[i].ty), i, a.operands)
    requires s2 == Go(k, s1, 1) && s3 == Go(k, s2, m)
    requires s2.cur.dst == NextReg(a.g) && s2.callers == [s1.cur.(pc := s1.cur.pc + 1)] + s1.callers
    requires CallOutcome(BodyContext(k.w, k.c, i), s2, s3, res, m, fuel)
    ensures ExprOutcome(g, r, s, Go(k, s1, n), res, n, fuel)
  {
    hide HaveValues, Run, Step, Keeps, KeepsCells, Along, HaltsIn, Above, HasValue, CallResult, ArgsShape,
      ExprOutcome, ArgsDone;
    if res.Value? {
      BackWithValue(k, g, a, i, |vs|, vs, s, s1, s3, r, res.v);
      ValueOutcome(g, r, s, Go(k, s3, 1), res, 1, fuel);
      n := Sequel(k, g, r, s, s2, res, m, 1, fuel);
      n := Sequel(k, g, r, s, s1, res, 1, n, fuel);
    } else {
      n := SequelGo(k, s1, 1, m);
      CalleeHalts(k, g, a, i, vs, s, s1, s2, s3, r, res, m, fuel);
    }
  }

  lemma ValueOutcome(g: Gen, r: Lowered, s: State, t: State, res: ExprResult, n: nat, fuel: nat)
    requires res.Value? && ExprDone(g, r, s, t, res.v) && t.out == res.out
    ensures ExprOutcome(g, r, s, t, res, n, fuel)
  {
  }

  /** The callee returns. */
  lemma BackWithValue(k: Context, g: Gen, a: LoweredArgs, i: nat, m: nat, vs: seq<Val>, s: State, s1: State, s3: State, r: Lowered, v: Val)
    requires i < |k.w.p| && ArgsShape(g, a, m, k.lo) && ArgsDone(g, a, s, s1, vs)
    requires r == CallResult(a.g, ToLType(k.w.p[i].ty), i, a.operands)
    requires s3.cur.dst == NextReg(a.g) && s3.callers == [s1.cur.(pc := s1.cur.pc + 1)] + s1.callers
    requires AtReturn(k.c, k.w.ops, s3, v) && TypeOfVal(v) == ToLType(k.w.p[i].ty)
    ensures ExprDone(g, r, s, Go(k, s3, 1), v) && Go(k, s3, 1).out == s3.out
  {
    hide HaveValues, Run, Step, Keeps, KeepsCells, Along, HasValue;
    ReturnToCaller(k.c, k.w.ops, a.g, ToLType(k.w.p[i].ty), CallFn(NextReg(a.g), i, a.operands), v, s1, s3);
    ExprLater(g, a.g, r, s, s1, Go(k, s3, 1), v);
  }

  /** The callee stops while the caller waits. */
  lemma CalleeHalts(k: Context, g: Gen, a: LoweredArgs, i: nat, vs: seq<Val>, s: State, s1: State, s2: State, t: State,
                    r: Lowered, res: ExprResult, m: nat, fuel: nat)
    requires i < |k.w.p| && ArgsDone(g, a, s, s1, vs) && r == CallResult(a.g, ToLType(k.w.p[i].ty), i, a.operands)
    requires s2.callers == [s1.cur.(pc := s1.cur.pc + 1)] + s1.callers
    requires res.Halted? && CallOutcome(BodyContext(k.w, k.c, i), s2, t, res, m, fuel)
    ensures ExprOutcome(g, r, s, t, res, m + 1, fuel)
  {
    hide HaveValues, Keeps, KeepsCells, BodyContext, HaltsIn, At;
    WaitsIn(g, a.g, r.g, s, s1, s2, t);
  }

  /** The caller's frame is as it was at the call. */
  lemma WaitsIn(g: Gen, h: Gen, k: Gen, s: State, s1: State, s2: State, t: State)
    requires Along(g, h, s, s1) && NextLabel(h) <= NextLabel(k) && Above(s2, t)
    requires s2.callers == [s1.cur.(pc := s1.cur.pc + 1)] + s1.callers
    ensures HaltsIn(g, k, s, t)
  {
    var waiting := t.callers[|t.callers| - |s2.callers|..];
    assert waiting == s2.callers;
    assert t.callers[|t.callers| - |s.callers|..] == waiting[1..];
    assert FrameAt(t, |s.callers|) == waiting[0];
  }

  lemma {:induction false} SimArgs(k: Context, g: Gen, args: seq<Expr>, params: seq<Param>, env: Env, fuel: nat, s: State)
    returns (n: nat)
    requires |args| == |params| && Here(k, g, env, s) && LowersArgs(k, g, args, params) && NamesInAll(args) <= env.Keys
    ensures ArgsOutcome(g, LowerArgs(g, args, ToLTypes(params)), s, Go(k, s, n), EvalArgs(k.w, args, params, env, s.out, fuel), n, fuel)
    decreases fuel, 1, args, 1
  {
    if args == [] {
      n := 0;
    } else {
      ArgStages(k, g, args, params);
      EvalArgsCons(k.w, args, params, env, s.out, fuel);
      hide Eval, Here, Lowers, Go, LowerExpr, ArgsDone, Extends, ExprOutcome, EvalArgs, LowerArgs, LowersArgs,
        ExprShape, LowerCast, ToLTypes;
      var r, res := LowerArgs(g, args, ToLTypes(params)), EvalArgs(k.w, args, params, env, s.out, fuel);
      n := SimExpr(k, g, args[0], env, fuel, s);
      var s1 := Go(k, s, n);
      var a := Eval(k.w, args[0], env, s.out, fuel);
      if a.Value? {
        OutcomeValue(g, LowerExpr(g, args[0]), s, s1, a, n, fuel);
        var m, s2 := SimArg(k, g, args, params, env, a.v, s, s1);
        n := SequelGo(k, s, n, m);
        var l := SimRestArgs(k, g, args, params, env, fuel, Convert(k.w.ops, a.v, params[0].ty), s, s2, r, res);
        n := SequelArgs(k, g, r, s, s, res, n, l, fuel);
      }  else {
        OneArgHalts(g, LowerExpr(g, args[0]), r, s, s1, a, res, n, fuel);
      }
    }
  }

  lemma SequelGo(k: Context, s: State, m: nat, n: nat) returns (sum: nat)
    ensures Go(k, s, sum) == Go(k, Go(k, s, m), n) && sum == m + n
  {
    GoTwice(k, s, m, n);
    sum := m + n;
  }

  lemma SequelArgs(k: Context, g: Gen, r: LoweredArgs, s: State, s1: State, res: ArgsResult, m: nat, n: nat, fuel: nat)
    returns (sum: nat)
    requires ArgsOutcome(g, r, s, Go(k, Go(k, s1, m), n), res, n, fuel)
    ensures ArgsOutcome(g, r, s, Go(k, s1, sum), res, sum, fuel)
  {
    GoTwice(k, s1, m, n);
    sum := m + n;
  }

  lemma OneArgHalts(g: Gen, r1: Lowered, r: LoweredArgs, s: State, t: State, a: ExprResult, res: ArgsResult, n: nat, fuel: nat)
    requires ExprOutcome(g, r1, s, t, a, n, fuel) && a.Halted? && res == ArgsHalted(a.why, a.out)
    requires NextLabel(r1.g) <= NextLabel(r.g)
    ensures ArgsOutcome(g, r, s, t, res, n, fuel)
  {
  }

  /** The first argument, converted. */
  function FirstArg(g: Gen, args: seq<Expr>, params: seq<Param>): Lowered
    requires |args| == |params| > 0
  {
    var r1 := LowerExpr(g, args[0]);
    if r1.operand.Some? then LowerCast(r1.g, r1.operand.value, ToLType(params[0].ty)) else r1
  }

  lemma ArgStages(k: Context, g: Gen, args: seq<Expr>, params: seq<Param>)
    requires |args| == |params| > 0 && Ready(g, k.lo) && LowersArgs(k, g, args, params)
    ensures var r1, r2 := LowerExpr(g, args[0]), FirstArg(g, args, params);
      && ExprShape(g, r1, k.lo) && r1.operand.Some? && Lowers(k, g, args[0])
      && ExprShape(r1.g, r2, k.lo) && ExprShape(g, r2, k.lo) && r2.operand.Some? && Extends(r2.g.code, k.c)
      && LowersArgs(k, r2.g, args[1..], params[1..])
      && var r3 := LowerArgs(r2.g, args[1..], ToLTypes(params[1..]));
      && Grows(r2.g, r3.g) && NextLabel(r1.g) <= NextLabel(r2.g) <= NextLabel(r3.g)
      && LowerArgs(g, args, ToLTypes(params)) == LoweredArgs(r3.g, [r2.operand.value] + r3.operands)
  {
    var ts := ToLTypes(params);
    assert ts[1..] == ToLTypes(params[1..]);
    var r1, r2 := LowerExpr(g, args[0]), FirstArg(g, args, params);
    ShapeExpr(g, args[0], k.lo);
    ShapeCast(r1.g, r1.operand.value, ts[0], k.lo);
    ShapeThen(g, r1.g, r2, k.lo);
    var r3 := LowerArgs(r2.g, args[1..], ts[1..]);
    ShapeArgs(r2.g, args[1..], ts[1..], k.lo);
    ExtendsLater(k.c, r2.g, r3.g);
    ExtendsLater(k.c, r1.g, r2.g);
  }

  lemma SimArg(k: Context, g: Gen, args: seq<Expr>, params: seq<Param>, env: Env, v: Val, s: State, s1: State)
    returns (n: nat, t: State)
    requires |args| == |params| > 0 && Here(k, g, env, s) && LowersArgs(k, g, args, params)
    requires ExprDone(g, LowerExpr(g, args[0]), s, s1, v)
    ensures t == Go(k, s1, n) && t.out == s1.out
    ensures ExprDone(g, FirstArg(g, args, params), s, t, Convert(k.w.ops, v, params[0].ty))
    ensures Here(k, FirstArg(g, args, params).g, env, t)
  {
    ArgStages(k, g, args, params);
    hide LowersArgs, Lowers, Extends, LowerExpr, LowerArgs, Inside, Match, Terminated, Grows, LowerCast;
    var r1, r2 := LowerExpr(g, args[0]), FirstArg(g, args, params);
    n := SimCast(k.c, k.w.ops, r1.g, r1.operand.value, params[0].ty, v, s1);
    t := Go(k, s1, n);
    ExprLater(g, r1.g, r2, s, s1, t, Convert(k.w.ops, v, params[0].ty));
    HereAfter(k, g, r2, env, s, t, Convert(k.w.ops, v, params[0].ty));
  }

  lemma {:induction false} SimRestArgs(k: Context, g: Gen, args: seq<Expr>, params: seq<Param>, env: Env, fuel: nat,
                                       v: Val, s: State, s2: State, r: LoweredArgs, res: ArgsResult)
    returns (n: nat)
    requires |args| == |params| > 0 && Ready(g, k.lo) && LowersArgs(k, g, args, params) && NamesInAll(args[1..]) <= env.Keys
    requires var r2 := FirstArg(g, args, params); ExprDone(g, r2, s, s2, v) && Here(k, r2.g, env, s2)
    requires r == LowerArgs(g, args, ToLTypes(params))
    requires var rest := EvalArgs(k.w, args[1..], params[1..], env, s2.out, fuel);
      res == if rest.ArgsHalted? then rest else Arguments([v] + rest.vs, rest.out)
    ensures ArgsOutcome(g, r, s, Go(k, s2, n), res, n, fuel)
    decreases fuel, 1, args, 0
  {
    ArgStages(k, g, args, params);
    hide Here, Lowers, Go, LowerExpr, EvalArgs, LowerArgs, LowersArgs, LowerCast, ToLTypes, ArgsDone, ExprDone, FirstArg;
    var r2 := FirstArg(g, args, params);
    var r3 := LowerArgs(r2.g, args[1..], ToLTypes(params[1..]));
    n := SimArgs(k, r2.g, args[1..], params[1..], env, fuel, s2);
    var t := Go(k, s2, n);
    var rest := EvalArgs(k.w, args[1..], params[1..], env, s2.out, fuel);
    if rest.Arguments? {
      ArgsCons(g, r2, r3, s, s2, t, v, rest.vs);
    } else {
      DoneAlong(g, r2, s, s2, v);
      HaltsLater(g, r2.g, r3.g, r.g, s, s2, t);
    }
  }

  // ----- statements -----

  ghost predicate LowersStmt(k: Context, g: Gen, s: Stmt) {
    LowerStmt(g, s).ok && Extends(LowerStmt(g, s).code, k.c)
  }

  /** A statement about to be run: the names it uses have values, and it holds no call statement. */
  ghost predicate Runs(k: Context, g: Gen, s: Stmt, env: Env) {
    Ready(g, k.lo) && LowersStmt(k, g, s) && Assured(s, Visible(g.scopes), env.Keys) && NoCallStmts(s)
  }

  lemma StmtSequel(k: Context, g: Gen, h: Gen, s: State, s1: State, res: StmtResult, m: nat, n: nat, fuel: nat)
    returns (sum: nat)
    requires StmtOutcome(k, g, h, s, Go(k, Go(k, s1, m), n), res, n, fuel)
    ensures StmtOutcome(k, g, h, s, Go(k, s1, sum), res, sum, fuel)
  {
    GoTwice(k, s1, m, n);
    sum := m + n;
  }

  /** The same, where the first part consumed one unit of fuel. */
  lemma LoopSequel(k: Context, g: Gen, h: Gen, s: State, s1: State, res: StmtResult, m: nat, n: nat, fuel: nat)
    returns (sum: nat)
    requires m > 0 && fuel > 0
    requires StmtOutcome(k, g, h, s, Go(k, Go(k, s1, m), n), res, n, fuel - 1)
    ensures StmtOutcome(k, g, h, s, Go(k, s1, sum), res, sum, fuel)
  {
    GoTwice(k, s1, m, n);
    sum := m + n;
  }

  lemma StmtRebase(k: Context, g: Gen, g1: Gen, h: Gen, s: State, s1: State, t: State, res: StmtResult, n: nat, fuel: nat)
    requires StmtOutcome(k, g1, h, s1, t, res, n, fuel) && Grows(g, g1) && Keeps(g, s, s1)
    ensures StmtOutcome(k, g, h, s, t, res, n, fuel)
  {
    if res.Normal? {
      StmtDoneLater(g, g1, h, s, s1, t, res.env);
    }
  }

  lemma StmtRebaseLater(k: Context, g: Gen, g1: Gen, h: Gen, s: State, s1: State, t: State, res: StmtResult, n: nat, fuel: nat)
    requires StmtOutcome(k, g1, h, s1, t, res, n, fuel) && Later(g, g1) && Keeps(g, s, s1)
    ensures StmtOutcome(k, g, h, s, t, res, n, fuel)
  {
    if res.Normal? {
      KeepsTransitive(g, g1, s, s1, t);
    }
  }

  lemma ExprHalts(k: Context, g1: Gen, r1: Lowered, s1: State, g: Gen, h: Gen, s: State, t: State, a: ExprResult, n: nat, fuel: nat)
    requires ExprOutcome(g1, r1, s1, t, a, n, fuel) && a.Halted? && s1.callers == s.callers
    ensures StmtOutcome(k, g, h, s, t, Stopped(a.why, a.out), n, fuel)
  {
  }

  lemma StmtHalts(k: Context, g1: Gen, h1: Gen, s1: State, g: Gen, h: Gen, s: State, t: State, res: StmtResult, n: nat, fuel: nat)
    requires StmtOutcome(k, g1, h1, s1, t, res, n, fuel) && !res.Normal?
    requires t.callers == s1.callers ==> s1.callers == s.callers
    requires s1.callers == s.callers && s1.cur.dst == s.cur.dst
    ensures StmtOutcome(k, g, h, s, t, res, n, fuel)
  {
  }

  lemma StmtFaults(k: Context, g: Gen, h: Gen, s: State, t: State, out: seq<Event>, n: nat, fuel: nat)
    requires t.status == Faulted(TypeMismatch) && t.out == out && t.callers == s.callers
    ensures StmtOutcome(k, g, h, s, t, Stopped(IllTyped, out), n, fuel)
  {
  }

  lemma {:induction false} SimStmt(k: Context, g: Gen, s: Stmt, env: Env, fuel: nat, st: State) returns (n: nat)
    requires Here(k, g, env, st) && Runs(k, g, s, env)
    ensures StmtOutcome(k, g, LowerStmt(g, s), st, Go(k, st, n), Exec(k.w, s, env, k.ret, st.out, fuel), n, fuel)
    decreases fuel, 2, s, 5
  {
    match s
    case Assign(_, _, _) => n := SimAssignStmt(k, g, s, env, fuel, st);
    case Print(_) => n := SimPrintStmt(k, g, s, env, fuel, st);
    case Return(_) => n := SimReturnStmt(k, g, s, env, fuel, st);
    case Block(_) => n := SimBlock(k, g, s, env, fuel, st);
    case If(_, _, _) => n := SimIf(k, g, s, env, fuel, st);
    case While(_, _) => n := SimWhile(k, g, s, env, fuel, st);
    case DoWhile(_, _) => n := SimDoWhile(k, g, s, env, fuel, st);
    case CallStmt(_) => assert false;
  }

  /** The single expression of a simple statement. */
  function ExprOf(s: Stmt): Expr
    requires s.Assign? || s.Print? || s.Return?
  {
    match s
    case Assign(_, _, e) => e
    case Print(e) => e
    case Return(e) => e
  }

  function LowerSimple(g: Gen, s: Stmt, v: Operand): Gen
    requires s.Assign? || s.Print? || s.Return?
  {
    match s
    case Assign(x, t, e) => LowerAssign(g, x, t, e.Type(), v)
    case Print(e) => LowerPrint(g, e.Type(), v)
    case Return(e) => LowerReturn(g, v)
  }

  lemma SimpleStages(k: Context, g: Gen, s: Stmt, env: Env)
    requires (s.Assign? || s.Print? || s.Return?) && Runs(k, g, s, env)
    ensures var r := LowerExpr(g, ExprOf(s));
      && ExprShape(g, r, k.lo) && r.operand.Some? && Lowers(k, g, ExprOf(s))
      && LowerStmt(g, s) == LowerSimple(r.g, s, r.operand.value)
      && Extends(LowerStmt(g, s).code, k.c) && (!s.Return? ==> Open(LowerStmt(g, s)))
  {
    var e := ExprOf(s);
    ShapeExpr(g, e, k.lo);
    var r := LowerExpr(g, e);
    if s.Assign? {
      ShapeAssign(r.g, s.name, s.varTy, e.Type(), r.operand.value, k.lo);
    } else if s.Print? {
      ShapePrint(r.g, e.Type(), r.operand.value, k.lo);
    } else {
      ShapeReturn(r.g, r.operand.value, k.lo);
    }
    ExtendsLater(k.c, r.g, LowerStmt(g, s));
  }

  lemma StmtAfterExpr(g: Gen, r: Lowered, h: Gen, s: State, s1: State, t: State, v: Val, env: Env)
    requires Grows(g, r.g) && ExprDone(g, r, s, s1, v) && StmtDone(r.g, h, s1, t, env)
    ensures StmtDone(g, h, s, t, env)
  {
    StmtDoneLater(g, r.g, h, s, s1, t, env);
  }

  lemma {:induction false} SimAssignStmt(k: Context, g: Gen, s: Stmt, env: Env, fuel: nat, st: State) returns (n: nat)
    requires s.Assign? && Here(k, g, env, st) && Runs(k, g, s, env)
    ensures StmtOutcome(k, g, LowerStmt(g, s), st, Go(k, st, n), Exec(k.w, s, env, k.ret, st.out, fuel), n, fuel)
    decreases fuel, 2, s, 4
  {
    SimpleStages(k, g, s, env);
    ExecAssign(k.w, s, env, k.ret, st.out, fuel);
    hide Eval, Exec, Here, Lowers, LowerExpr, LowerStmt, LowerAssign, ExprShape, Extends, Runs, Go;
    var r, h, res := LowerExpr(g, s.rhs), LowerStmt(g, s), Exec(k.w, s, env, k.ret, st.out, fuel);
    n := SimExpr(k, g, s.rhs, env, fuel, st);
    var s1 := Go(k, st, n);
    var v := Eval(k.w, s.rhs, env, st.out, fuel);
    if v.Value? {
      var m := AssignTail(k, g, s, env, v.v, st, s1, res, fuel);
      n := StmtSequel(k, g, h, st, st, res, n, m, fuel);
    } else {
      ExprHalts(k, g, r, st, g, h, st, s1, v, n, fuel);
    }
  }

  lemma AssignTail(k: Context, g: Gen, s: Stmt, env: Env, v: Val, st: State, s1: State, res: StmtResult, fuel: nat) returns (n: nat)
    requires s.Assign? && Here(k, g, env, st) && Runs(k, g, s, env)
    requires ExprDone(g, LowerExpr(g, s.rhs), st, s1, v)
    requires res == Normal(env[s.name := Assigned(k.w.ops, s.varTy, s.rhs.Type(), v)], s1.out)
    ensures StmtOutcome(k, g, LowerStmt(g, s), st, Go(k, s1, n), res, n, fuel)
  {
    SimpleStages(k, g, s, env);
    hide Runs, Lowers, LowerExpr, LowerStmt, LowerAssign, Extends, Terminated, Inside;
    var r := LowerExpr(g, s.rhs);
    HereAfter(k, g, r, env, st, s1, v);
    ScopesNonEmpty(k, r.g, env, s1);
    AssignedHasValue(k, g, s, env);
    n := SimAssign(k.c, k.w.ops, r.g, s.name, s.varTy, s.rhs.Type(), r.operand.value, v, env, s1, k.lo);
    StmtAfterExpr(g, r, LowerStmt(g, s), st, s1, Go(k, s1, n), v, res.env);
  }

  /** A name that is assigned, not declared, has a value. */
  lemma AssignedHasValue(k: Context, g: Gen, s: Stmt, env: Env)
    requires s.Assign? && Runs(k, g, s, env)
    ensures Lookup(g.scopes, s.name).Some? ==> s.name in env
  {
    VisibleNames(g.scopes);
  }

  lemma ScopesNonEmpty(k: Context, g: Gen, env: Env, s: State)
    requires Here(k, g, env, s)
    ensures g.scopes != []
  {
  }

  lemma {:induction false} SimPrintStmt(k: Context, g: Gen, s: Stmt, env: Env, fuel: nat, st: State) returns (n: nat)
    requires s.Print? && Here(k, g, env, st) && Runs(k, g, s, env)
    ensures StmtOutcome(k, g, LowerStmt(g, s), st, Go(k, st, n), Exec(k.w, s, env, k.ret, st.out, fuel), n, fuel)
    decreases fuel, 2, s, 4
  {
    SimpleStages(k, g, s, env);
    ExecPrint(k.w, s, env, k.ret, st.out, fuel);
    hide Eval, Exec, Here, Lowers, LowerExpr, LowerStmt, LowerPrint, ExprShape, Extends, Runs, Go, Shown;
    var r, h, res := LowerExpr(g, s.e), LowerStmt(g, s), Exec(k.w, s, env, k.ret, st.out, fuel);
    n := SimExpr(k, g, s.e, env, fuel, st);
    var s1 := Go(k, st, n);
    var v := Eval(k.w, s.e, env, st.out, fuel);
    if v.Value? {
      var m := PrintTail(k, g, s, env, v.v, st, s1, res, fuel);
      n := StmtSequel(k, g, h, st, st, res, n, m, fuel);
    } else {
      ExprHalts(k, g, r, st, g, h, st, s1, v, n, fuel);
    }
  }

  lemma PrintTail(k: Context, g: Gen, s: Stmt, env: Env, v: Val, st: State, s1: State, res: StmtResult, fuel: nat) returns (n: nat)
    requires s.Print? && Here(k, g, env, st) && Runs(k, g, s, env)
    requires ExprDone(g, LowerExpr(g, s.e), st, s1, v)
    requires var e := Shown(k.w.ops, s.e.Type(), v);
      res == if e.None? then Stopped(IllTyped, s1.out) else Normal(env, s1.out + [e.value])
    ensures StmtOutcome(k, g, LowerStmt(g, s), st, Go(k, s1, n), res, n, fuel)
  {
    hide Runs, Lowers, LowerExpr, LowerStmt, LowerPrint, Extends, Terminated, Inside, Shown, Match, Resolves;
    SimpleStages(k, g, s, env);
    var r := LowerExpr(g, s.e);
    HereAfter(k, g, r, env, st, s1, v);
    n := SimPrint(k.c, k.w.ops, r.g, s.e.Type(), r.operand.value, v, env, s1, k.lo);
    if res.Normal? {
      StmtAfterExpr(g, r, LowerStmt(g, s), st, s1, Go(k, s1, n), v, env);
    }
  }

  lemma {:induction false} SimReturnStmt(k: Context, g: Gen, s: Stmt, env: Env, fuel: nat, st: State) returns (n: nat)
    requires s.Return? && Here(k, g, env, st) && Runs(k, g, s, env)
    ensures StmtOutcome(k, g, LowerStmt(g, s), st, Go(k, st, n), Exec(k.w, s, env, k.ret, st.out, fuel), n, fuel)
    decreases fuel, 2, s, 4
  {
    SimpleStages(k, g, s, env);
    ExecReturn(k.w, s, env, k.ret, st.out, fuel);
    hide Eval, Exec, Here, Lowers, LowerExpr, LowerStmt, LowerReturn, ExprShape, Extends, Runs, Go;
    var r, h, res := LowerExpr(g, s.e), LowerStmt(g, s), Exec(k.w, s, env, k.ret, st.out, fuel);
    n := SimExpr(k, g, s.e, env, fuel, st);
    var s1 := Go(k, st, n);
    var v := Eval(k.w, s.e, env, st.out, fuel);
    if v.Value? {
      var m := ReturnTail(k, g, s, env, v.v, st, s1, res, fuel);
      n := StmtSequel(k, g, h, st, st, res, n, m, fuel);
    } else {
      ExprHalts(k, g, r, st, g, h, st, s1, v, n, fuel);
    }
  }

  lemma ReturnTail(k: Context, g: Gen, s: Stmt, env: Env, v: Val, st: State, s1: State, res: StmtResult, fuel: nat) returns (n: nat)
    requires s.Return? && Here(k, g, env, st) && Runs(k, g, s, env)
    requires ExprDone(g, LowerExpr(g, s.e), st, s1, v)
    requires res == StmtResult.Returned(Convert(k.w.ops, v, k.ret), s1.out)
    ensures StmtOutcome(k, g, LowerStmt(g, s), st, Go(k, s1, n), res, n, fuel)
  {
    SimpleStages(k, g, s, env);
    ConvertIsCast(k.w.ops, v, k.ret);
    hide Runs, Lowers, LowerExpr, LowerStmt, LowerReturn, Extends, Terminated, Match, Linked, Convert;
    var r := LowerExpr(g, s.e);
    HereAfter(k, g, r, env, st, s1, v);
    n := SimReturn(k.c, k.w.ops, r.g, k.ret, r.operand.value, v, s1, k.lo);
  }

  // ----- blocks -----

  function Pushed(g: Gen): Gen { g.(scopes := g.scopes + [map[]]) }

  ghost predicate RunsSeq(k: Context, g: Gen, ss: seq<Stmt>, env: Env) {
    && Ready(g, k.lo) && LowerSeq(g, ss).ok && Extends(LowerSeq(g, ss).code, k.c)
    && AssuredAll(ss, Visible(g.scopes), env.Keys) && forall i :: 0 <= i < |ss| ==> NoCallStmts(ss[i])
  }

  lemma ResolvedNames(k: Context, g: Gen, env: Env, s: State)
    requires Here(k, g, env, s)
    ensures Resolves(g.scopes, Visible(g.scopes)) && env.Keys <= Visible(g.scopes)
  {
    VisibleNames(g.scopes);
  }

  lemma MatchPushed(g: Gen, env: Env, fr: Frame)
    requires Match(g, env, fr)
    ensures Match(Pushed(g), env, fr)
  {
    LookupPushed(g.scopes);
    forall x | x in env ensures VarMatches(Pushed(g), env, fr, x) && CellOf(Pushed(g), fr, x) == CellOf(g, fr, x) {
      assert VarMatches(g, env, fr, x);
    }
  }

  lemma EnterBlock(k: Context, g: Gen, s: Stmt, env: Env, st: State)
    requires s.Block? && Here(k, g, env, st) && Runs(k, g, s, env)
    ensures Here(k, Pushed(g), env, st) && RunsSeq(k, Pushed(g), s.stmts, env)
    ensures var h1 := LowerSeq(Pushed(g), s.stmts);
      LowerStmt(g, s) == h1.(scopes := Popped(h1.scopes)) && LowerStmt(g, s).scopes == g.scopes
      && Grows(Pushed(g), h1)
    ensures forall x :: x in env ==> Lookup(LowerSeq(Pushed(g), s.stmts).scopes, x) == Lookup(g.scopes, x)
  {
    hide Settled, Tidy, Refines, Match, Extends, Linked, Terminated, Assured, AssuredAll, Resolves;
    ResolvedNames(k, g, env, st);
    PushedReady(g, Visible(g.scopes), k.lo);
    MatchPushed(g, env, st.cur);
    ShapeSeq(Pushed(g), s.stmts, k.lo);
    BlockRuns(k, g, s, env);
    BlockScopes(k, g, s, env, st);
  }

  /** What is required of a block's statements. */
  lemma BlockRuns(k: Context, g: Gen, s: Stmt, env: Env)
    requires s.Block? && Runs(k, g, s, env) && Resolves(g.scopes, Visible(g.scopes))
    ensures AssuredAll(s.stmts, Visible(Pushed(g).scopes), env.Keys)
  {
    hide LowerStmt, Extends;
    PushedReady(g, Visible(g.scopes), k.lo);
    ResolvesVisible(Pushed(g).scopes, Visible(g.scopes));
  }

  lemma BlockScopes(k: Context, g: Gen, s: Stmt, env: Env, st: State)
    requires s.Block? && Here(k, g, env, st) && Runs(k, g, s, env)
    ensures var h1 := LowerSeq(Pushed(g), s.stmts);
      Popped(h1.scopes) == g.scopes && forall x :: x in env ==> Lookup(h1.scopes, x) == Lookup(g.scopes, x)
  {
    hide Inside, Match, Extends, Assured, AssuredAll, Terminated, Settled, Tidy;
    ResolvedNames(k, g, env, st);
    var bound := Visible(g.scopes);
    PushedReady(g, bound, k.lo);
    ReboundSeq(Pushed(g), s.stmts, bound, k.lo);
    BlockEffect(g.scopes, LowerSeq(Pushed(g), s.stmts).scopes, bound);
  }

  lemma {:induction false} SimBlock(k: Context, g: Gen, s: Stmt, env: Env, fuel: nat, st: State) returns (n: nat)
    requires s.Block? && Here(k, g, env, st) && Runs(k, g, s, env)
    ensures StmtOutcome(k, g, LowerStmt(g, s), st, Go(k, st, n), Exec(k.w, s, env, k.ret, st.out, fuel), n, fuel)
    decreases fuel, 2, s, 4
  {
    EnterBlock(k, g, s, env, st);
    ExecBlock(k.w, s, env, k.ret, st.out, fuel);
    hide Exec, ExecSeq, LowerStmt, LowerSeq, Extends, Runs, RunsSeq, Go, StmtOutcome, Lookup;
    n := SimSeq(k, Pushed(g), s.stmts, env, fuel, st);
    SeqKeepsNames(k.w, s.stmts, env, k.ret, st.out, fuel);
    LeaveBlock(k, g, s, env, st, Go(k, st, n), ExecSeq(k.w, s.stmts, env, k.ret, st.out, fuel), n, fuel);
  }

  lemma LeaveBlock(k: Context, g: Gen, s: Stmt, env: Env, st: State, t: State, res: StmtResult, n: nat, fuel: nat)
    requires s.Block? && Here(k, g, env, st)
    requires var h1 := LowerSeq(Pushed(g), s.stmts);
      && LowerStmt(g, s) == h1.(scopes := Popped(h1.scopes)) && LowerStmt(g, s).scopes == g.scopes
      && Grows(Pushed(g), h1)
      && (forall x :: x in env ==> Lookup(h1.scopes, x) == Lookup(g.scopes, x))
      && (res.Normal? ==> env.Keys <= res.env.Keys)
      && StmtOutcome(k, Pushed(g), h1, st, t, res, n, fuel)
    ensures StmtOutcome(k, g, LowerStmt(g, s), st, t,
      if res.Normal? then Normal(Restrict(res.env, env.Keys), res.out) else res, n, fuel)
  {
    hide LowerStmt, LowerSeq, Inside, Terminated, Lookup;
    if res.Normal? {
      MatchRestricted(g, LowerSeq(Pushed(g), s.stmts), LowerStmt(g, s), env, res.env, st, t);
    }
  }

  lemma {:induction false} SimSeq(k: Context, g: Gen, ss: seq<Stmt>, env: Env, fuel: nat, st: State) returns (n: nat)
    requires Here(k, g, env, st) && RunsSeq(k, g, ss, env)
    ensures StmtOutcome(k, g, LowerSeq(g, ss), st, Go(k, st, n), ExecSeq(k.w, ss, env, k.ret, st.out, fuel), n, fuel)
    decreases fuel, 2, ss, 2
  {
    if ss == [] {
      n := 0;
    } else {
      FirstStmt(k, g, ss, env, st);
      ExecSeqCons(k.w, ss, env, k.ret, st.out, fuel);
      hide Exec, ExecSeq, LowerStmt, LowerSeq, Extends, Runs, RunsSeq, Go, StmtOutcome, Here;
      var h, res := LowerSeq(g, ss), ExecSeq(k.w, ss, env, k.ret, st.out, fuel);
      var g1 := LowerStmt(g, ss[0]);
      n := SimStmt(k, g, ss[0], env, fuel, st);
      var s1 := Go(k, st, n);
      var r := Exec(k.w, ss[0], env, k.ret, st.out, fuel);
      if r.Normal? {
        SureHasValue(k.w, ss[0], env, k.ret, st.out, fuel, Visible(g.scopes));
        NextStmt(k, g, ss, env, r, st, s1, n, fuel);
        var m := SimSeq(k, g1, ss[1..], r.env, fuel, s1);
        StmtRebase(k, g, g1, h, st, s1, Go(k, s1, m), res, m, fuel);
        n := StmtSequel(k, g, h, st, st, res, n, m, fuel);
      } else {
        StmtHalts(k, g, g1, st, g, h, st, s1, r, n, fuel);
      }
    }
  }

  lemma FirstStmt(k: Context, g: Gen, ss: seq<Stmt>, env: Env, st: State)
    requires ss != [] && Here(k, g, env, st) && RunsSeq(k, g, ss, env)
    ensures Runs(k, g, ss[0], env)
  {
    var g1 := LowerStmt(g, ss[0]);
    ShapeStmt(g, ss[0], k.lo);
    if g1.ok && !Terminated(InsertBlock(g1)) {
      ShapeSeq(g1, ss[1..], k.lo);
      ExtendsLater(k.c, g1, LowerSeq(g1, ss[1..]));
    }
  }

  lemma NextStmt(k: Context, g: Gen, ss: seq<Stmt>, env: Env, r: StmtResult, st: State, s1: State, n: nat, fuel: nat)
    requires ss != [] && Here(k, g, env, st) && RunsSeq(k, g, ss, env) && Runs(k, g, ss[0], env)
    requires r.Normal? && StmtOutcome(k, g, LowerStmt(g, ss[0]), st, s1, r, n, fuel)
    requires Falls(ss[0]) && SureAfter(ss[0], Visible(g.scopes), env.Keys) <= r.env.Keys
    ensures var g1 := LowerStmt(g, ss[0]);
      && Here(k, g1, r.env, s1) && RunsSeq(k, g1, ss[1..], r.env) && s1.out == r.out
      && Grows(g, g1) && Keeps(g, st, s1) && LowerSeq(g, ss) == LowerSeq(g1, ss[1..])
  {
    NextNames(k, g, ss, env, r.env, st);
    hide Match, Extends, Linked, Assured, AssuredAll;
    var g1 := LowerStmt(g, ss[0]);
    ShapeStmt(g, ss[0], k.lo);
    InsideLater(k.w, k.c, g, g1, k.ret);
  }

  /** The names the rest of a sequence uses have values. */
  lemma NextNames(k: Context, g: Gen, ss: seq<Stmt>, env: Env, env1: Env, st: State)
    requires ss != [] && Here(k, g, env, st) && AssuredAll(ss, Visible(g.scopes), env.Keys)
    requires LowerStmt(g, ss[0]).ok && Falls(ss[0]) && SureAfter(ss[0], Visible(g.scopes), env.Keys) <= env1.Keys
    ensures LowerStmt(g, ss[0]).scopes != [] && AssuredAll(ss[1..], Visible(LowerStmt(g, ss[0]).scopes), env1.Keys)
  {
    hide Match, Linked, LowerStmt, Resolves, Refines;
    var g1, bound := LowerStmt(g, ss[0]), Visible(g.scopes);
    var after := BoundAfter(ss[0], bound);
    ResolvedNames(k, g, env, st);
    ReboundStmt(g, ss[0], bound, k.lo);
    ReboundParts(g, g1, bound, after);
    ResolvesVisible(g1.scopes, after);
    SomeScope(g1.scopes, after);
    MoreSureAll(ss[1..], after, SureAfter(ss[0], bound, env.Keys), env1.Keys);
  }

  lemma SomeScope(scopes: seq<Scope>, names: set<string>)
    requires Resolves(scopes, names)
    ensures scopes != []
  {
  }

  // ----- branches -----

  /** The insert block and the registers are all a jump out of `g` depends on. */
  lemma JumpOut(k: Context, g: Gen, h: Gen, i: Instr, s: State)
    requires At(g, s) && g.insert < |g.code.blocks|
    requires h.insert == g.insert && InsertBlock(h) == InsertBlock(g) && h.insert < |h.code.blocks|
    requires Extends(Emit(h, i).code, k.c)
    ensures Go(k, s, 1) == Perform(k.c, k.w.ops, s, i)
  {
    FetchInstr(k.c, k.w.ops, h, i, s);
  }

  /** Joining: the branch at the end of `g` leads to the empty insert block of `h`. */
  lemma SimJoinEnd(k: Context, g0: Gen, g: Gen, h: Gen, env: Env, s: State, s1: State)
    requires StmtDone(g0, g, s, s1, env) && Open(g) && Extends(Emit(g, Br(h.insert)).code, k.c)
    requires InsertBlock(h) == [] && Widens(g.scopes, h.scopes) && NextReg(g) <= NextReg(h) && NextReg(g0) <= NextReg(g)
    ensures StmtDone(g0, h, s, Go(k, s1, 1), env) && Go(k, s1, 1).out == s1.out
  {
    hide Extends, Match, Terminated;
    StepJump(k.c, k.w.ops, g, h.insert, s1);
    Arrive(g, h, h.insert, env, s1);
    KeepsTransitive(g0, g, s, s1, Go(k, s1, 1));
  }

  /** Entering the empty insert block of `h` by a jump. */
  lemma EnterByJump(k: Context, g: Gen, h: Gen, env: Env, s: State)
    requires Here(k, g, env, s) && Later(g, h) && Widens(g.scopes, h.scopes) && h.scopes != [] && Ready(h, k.lo) && InsertBlock(h) == []
    ensures Here(k, h, env, Jump(s, h.insert)) && Keeps(g, s, Jump(s, h.insert))
  {
    HereLater(k, g, h, env, s, Jump(s, h.insert));
  }

  /** The test at the end of `g`. */
  lemma SimTest(k: Context, g: Gen, h: Gen, op: Operand, v: Val, l: nat, r: nat, s: State)
    requires At(g, s) && g.insert < |g.code.blocks| && HasValue(g, s.cur, op, v)
    requires h.insert == g.insert && InsertBlock(h) == InsertBlock(g) && h.insert < |h.code.blocks|
    requires Extends(Emit(h, CondBr(op, l, r)).code, k.c)
    ensures if v.BoolV? then Go(k, s, 1) == Jump(s, if v.b then l else r) else Go(k, s, 1) == Fail(s, TypeMismatch)
  {
    JumpOut(k, g, h, CondBr(op, l, r), s);
  }

  lemma ExtendsAttached(c: Code, g: Gen, l: nat)
    requires Extends(SetInsert(Attach(g, l), l).code, c)
    ensures Extends(g.code, c)
  {
  }

  lemma ExtendsBranch(c: Code, g: Gen, l: nat)
    requires Extends(BranchIfOpen(g, l).code, c) && g.insert < |g.code.blocks|
    ensures Extends(g.code, c)
    ensures Open(g) ==> Extends(Emit(g, Br(l)).code, c)
  {
    if !Terminated(InsertBlock(g)) {
      ExtendsEmit(c, g, Br(l));
    }
  }

  function IfOf(g: Gen, s: Stmt): IfStages
    requires s.If?
  {
    var st := StagesOfIf(g, s);
    if st.Some? then st.value else IfStages(Lowered(g, None), 0, g, g, g, g, g)
  }

  /** The code of every stage of an `if` is there. */
  lemma IfExtends(k: Context, g: Gen, s: Stmt, env: Env)
    requires s.If? && Runs(k, g, s, env)
    ensures var st := IfOf(g, s);
      && StagesOfIf(g, s) == Some(st) && st.end == LowerStmt(g, s)
      && ThenShape(g, st, k.lo) && ElseShape(st, k.lo) && st.test.operand.Some?
      && Extends(st.elseEnd.code, k.c) && (Open(st.elseEnd) ==> Extends(Emit(st.elseEnd, Br(st.l + 2)).code, k.c))
      && Extends(st.elseStart.code, k.c)
      && Extends(st.thenEnd.code, k.c) && (Open(st.thenEnd) ==> Extends(Emit(st.thenEnd, Br(st.l + 2)).code, k.c))
      && Extends(st.thenStart.code, k.c) && Extends(st.test.g.code, k.c)
  {
    hide Settled, Tidy, Terminated, LowerStmt, LowerExpr, Extends, Waiting, ThenShape, ElseShape;
    IfSucceeds(g, s, k.lo);
    ShapeOfThen(g, s, k.lo);
    ShapeOfElse(g, s, k.lo);
    var st := StagesOfIf(g, s).value;
    RunsExtends(k, g, s, env);
    ElseExtends(k, st);
    ThenExtends(k, g, st);
  }

  lemma RunsExtends(k: Context, g: Gen, s: Stmt, env: Env)
    requires Runs(k, g, s, env)
    ensures Extends(LowerStmt(g, s).code, k.c)
  {
    hide Extends, LowerStmt;
  }

  lemma ElseExtends(k: Context, st: IfStages)
    requires ElseShape(st, k.lo) && st.end == SetInsert(Attach(BranchIfOpen(st.elseEnd, st.l + 2), st.l + 2), st.l + 2)
    requires Extends(st.end.code, k.c)
    ensures Extends(st.elseEnd.code, k.c) && (Open(st.elseEnd) ==> Extends(Emit(st.elseEnd, Br(st.l + 2)).code, k.c))
    ensures Extends(st.elseStart.code, k.c)
  {
    hide Settled, Tidy, Terminated, Extends;
    ExtendsAttached(k.c, BranchIfOpen(st.elseEnd, st.l + 2), st.l + 2);
    ExtendsBranch(k.c, st.elseEnd, st.l + 2);
    ExtendsLater(k.c, st.elseStart, st.elseEnd);
  }

  lemma ThenExtends(k: Context, g: Gen, st: IfStages)
    requires ThenShape(g, st, k.lo) && Extends(st.elseStart.code, k.c)
    requires st.elseStart == SetInsert(Attach(BranchIfOpen(st.thenEnd, st.l + 2), st.l + 1), st.l + 1)
    ensures Extends(st.thenEnd.code, k.c) && (Open(st.thenEnd) ==> Extends(Emit(st.thenEnd, Br(st.l + 2)).code, k.c))
    ensures Extends(st.thenStart.code, k.c) && Extends(st.test.g.code, k.c)
  {
    hide Settled, Tidy, Terminated, Extends;
    ExtendsAttached(k.c, BranchIfOpen(st.thenEnd, st.l + 2), st.l + 1);
    ExtendsBranch(k.c, st.thenEnd, st.l + 2);
    ExtendsLater(k.c, st.thenStart, st.thenEnd);
    ExtendsLater(k.c, st.test.g, st.thenStart);
  }

  /** The branch visited from `g0` to `g` ends, if it can, in a jump to the empty insert block of `h`. */
  ghost predicate Joins(k: Context, g0: Gen, g: Gen, h: Gen) {
    && Grows(g0, g) && NextReg(g) <= NextReg(h) && Widens(g.scopes, h.scopes)
    && Open(h) && InsertBlock(h) == []
    && (Open(g) ==> Extends(Emit(g, Br(h.insert)).code, k.c))
  }

  /** A branch that ran from `s` and now joins the empty insert block of `h`. */
  lemma JoinOutcome(k: Context, g0: Gen, g: Gen, h: Gen, s: State, res: StmtResult, n: nat, fuel: nat) returns (m: nat)
    requires StmtOutcome(k, g0, g, s, Go(k, s, n), res, n, fuel) && Joins(k, g0, g, h)
    ensures StmtOutcome(k, g0, h, s, Go(k, s, m), res, m, fuel)
    ensures res.Normal? ==> m > 0
  {
    hide Extends, Match;
    m := n;
    if res.Normal? {
      GrowsRegs(g0, g);
      SimJoinEnd(k, g0, g, h, res.env, s, Go(k, s, n));
      m := SequelGo(k, s, n, 1);
    }
  }

  lemma IfScopes(k: Context, g: Gen, s: Stmt, env: Env, st: State)
    requires s.If? && Here(k, g, env, st) && Runs(k, g, s, env)
    ensures var u := IfOf(g, s);
      && Runs(k, u.thenStart, s.thn, env) && u.thenEnd == LowerStmt(u.thenStart, s.thn)
      && Widens(g.scopes, u.elseStart.scopes) && Widens(u.thenEnd.scopes, u.end.scopes) && u.elseStart.scopes != []
      && (s.els.Some? ==> Runs(k, u.elseStart, s.els.value, env) && u.elseEnd == LowerStmt(u.elseStart, s.els.value))
      && (s.els.None? ==> u.elseEnd == u.elseStart)
  {
    hide Resolves, Refines, Extends, Match, Inside;
    IfExtends(k, g, s, env);
    ResolvedNames(k, g, env, st);
    var u := IfOf(g, s);
    var bound := Visible(g.scopes);
    var after := BoundAfter(s.thn, bound);
    ReboundStmt(u.thenStart, s.thn, bound, k.lo);
    ReboundParts(u.thenStart, u.thenEnd, bound, after);
    ResolvesVisible(u.elseStart.scopes, after);
    RefinesWidens(g.scopes, u.elseStart.scopes, bound);
    if s.els.Some? {
      ReboundStmt(u.elseStart, s.els.value, after, k.lo);
      ReboundParts(u.elseStart, u.elseEnd, after, BoundAfter(s.els.value, after));
      RefinesWidens(u.thenEnd.scopes, u.end.scopes, after);
    }
  }

  lemma RefinesWidens(a: seq<Scope>, b: seq<Scope>, names: set<string>)
    requires Resolves(a, names) && Refines(a, b, names)
    ensures Widens(a, b) && b != []
  {
  }

  /** After the test: in the right branch, or stopped. */
  lemma SimIfTest(k: Context, g: Gen, s: Stmt, env: Env, v: Val, st: State, s1: State)
    requires s.If? && Here(k, g, env, st) && Runs(k, g, s, env)
    requires ExprDone(g, LowerExpr(g, s.cond), st, s1, v)
    ensures var u, s2 := IfOf(g, s), Go(k, s1, 1);
      && s2.out == s1.out
      && (!v.BoolV? ==> s2.status == Faulted(TypeMismatch) && s2.callers == st.callers)
      && (v.BoolV? && v.b ==> Here(k, u.thenStart, env, s2) && Keeps(g, st, s2) && Grows(g, u.thenStart))
      && (v.BoolV? && !v.b ==> Here(k, u.elseStart, env, s2) && Keeps(g, st, s2) && Grows(g, u.elseStart))
  {
    IfExtends(k, g, s, env);
    IfScopes(k, g, s, env, st);
    var u := IfOf(g, s);
    var g1 := u.test.g;
    IfTestJump(k, g, s, env, v, s1);
    hide Extends, Match, Inside, Terminated, Runs, LowerStmt, LowerExpr, Go, IfOf;
    HereAfter(k, g, u.test, env, st, s1, v);
    if v.BoolV? {
      var h := if v.b then u.thenStart else u.elseStart;
      GrowsLater(g1, h);
      EnterByJump(k, g1, h, env, s1);
      KeepsAfter(g, g1, st, s1, Go(k, s1, 1));
      GrowsTransitive(g, g1, h);
    }
  }

  lemma IfTestJump(k: Context, g: Gen, s: Stmt, env: Env, v: Val, s1: State)
    requires s.If? && Runs(k, g, s, env)
    requires At(LowerExpr(g, s.cond).g, s1) && LowerExpr(g, s.cond).operand.Some?
    requires HasValue(LowerExpr(g, s.cond).g, s1.cur, LowerExpr(g, s.cond).operand.value, v)
    ensures var u := IfOf(g, s);
      u.test == LowerExpr(g, s.cond) &&
      if v.BoolV? then Go(k, s1, 1) == Jump(s1, if v.b then u.l else u.l + 1) else Go(k, s1, 1) == Fail(s1, TypeMismatch)
  {
    IfExtends(k, g, s, env);
    var u := IfOf(g, s);
    var g1 := u.test.g;
    var h := CreateBlock(CreateBlock(CreateBlock(g1, Some(g1.cur)), None), None);
    hide Extends;
    assert u.thenStart == SetInsert(Emit(h, CondBr(u.test.operand.value, u.l, u.l + 1)), u.l);
    SimTest(k, g1, h, u.test.operand.value, v, u.l, u.l + 1, s1);
  }

  lemma {:induction false} SimIf(k: Context, g: Gen, s: Stmt, env: Env, fuel: nat, st: State) returns (n: nat)
    requires s.If? && Here(k, g, env, st) && Runs(k, g, s, env)
    ensures StmtOutcome(k, g, LowerStmt(g, s), st, Go(k, st, n), Exec(k.w, s, env, k.ret, st.out, fuel), n, fuel)
    decreases fuel, 2, s, 4
  {
    IfExtends(k, g, s, env);
    ExecIf(k.w, s, env, k.ret, st.out, fuel);
    IfCondition(k, g, s, env);
    hide Eval, Exec, Here, Lowers, LowerExpr, LowerStmt, Extends, Runs, Go, StmtOutcome, ExprOutcome, ExprDone,
      ThenShape, ElseShape, StagesOfIf, IfOf, Open, Emit;
    var h, res := LowerStmt(g, s), Exec(k.w, s, env, k.ret, st.out, fuel);
    n := SimExpr(k, g, s.cond, env, fuel, st);
    var s1 := Go(k, st, n);
    var v := Eval(k.w, s.cond, env, st.out, fuel);
    if v.Value? {
      OutcomeValue(g, LowerExpr(g, s.cond), st, s1, v, n, fuel);
      SimIfTest(k, g, s, env, v.v, st, s1);
      var s2 := Go(k, s1, 1);
      n := SequelGo(k, st, n, 1);
      if v.v.BoolV? {
        var m;
        if v.v.b {
          m := SimThen(k, g, s, env, fuel, st, s2, res);
        } else {
          m := SimElse(k, g, s, env, fuel, st, s2, res);
        }
        n := StmtSequel(k, g, h, st, st, res, n, m, fuel);
      } else {
        StmtFaults(k, g, h, st, s2, v.out, n, fuel);
      }
    } else {
      ExprHalts(k, g, LowerExpr(g, s.cond), st, g, h, st, s1, v, n, fuel);
    }
  }

  lemma IfCondition(k: Context, g: Gen, s: Stmt, env: Env)
    requires s.If? && Runs(k, g, s, env)
    ensures Lowers(k, g, s.cond)
  {
    IfExtends(k, g, s, env);
  }

  lemma {:induction false} SimThen(k: Context, g: Gen, s: Stmt, env: Env, fuel: nat, st: State, s2: State, res: StmtResult)
    returns (n: nat)
    requires s.If? && Here(k, g, env, st) && Runs(k, g, s, env)
    requires Here(k, IfOf(g, s).thenStart, env, s2) && Keeps(g, st, s2) && Grows(g, IfOf(g, s).thenStart)
    requires res == Exec(k.w, s.thn, env, k.ret, s2.out, fuel)
    ensures StmtOutcome(k, g, LowerStmt(g, s), st, Go(k, s2, n), res, n, fuel)
    decreases fuel, 2, s, 1
  {
    IfJoins(k, g, s, env, st);
    IfScopes(k, g, s, env, st);
    hide Exec, Here, LowerExpr, LowerStmt, Extends, Runs, Go, StmtOutcome, IfOf, Joins, Keeps, Grows;
    var u := IfOf(g, s);
    n := SimStmt(k, u.thenStart, s.thn, env, fuel, s2);
    n := JoinOutcome(k, u.thenStart, u.thenEnd, u.end, s2, res, n, fuel);
    StmtRebase(k, g, u.thenStart, u.end, st, s2, Go(k, s2, n), res, n, fuel);
  }

  lemma IfJoins(k: Context, g: Gen, s: Stmt, env: Env, st: State)
    requires s.If? && Here(k, g, env, st) && Runs(k, g, s, env)
    ensures var u := IfOf(g, s);
      Joins(k, u.thenStart, u.thenEnd, u.end) && Joins(k, u.elseStart, u.elseEnd, u.end) && u.end == LowerStmt(g, s)
  {
    hide Settled, Tidy, Terminated, LowerStmt, LowerExpr, Extends, Match, Inside, Runs;
    IfExtends(k, g, s, env);
    IfScopes(k, g, s, env, st);
    var u := IfOf(g, s);
    RegsKept(u.thenEnd, u.l + 2, u.l + 1);
    RegsKept(u.elseEnd, u.l + 2, u.l + 2);
    GrowsRegs(u.elseStart, u.elseEnd);
  }

  lemma RegsKept(g: Gen, target: nat, next: nat)
    ensures SetInsert(Attach(BranchIfOpen(g, target), next), next).code.regs == g.code.regs
  {
  }

  lemma {:induction false} SimElse(k: Context, g: Gen, s: Stmt, env: Env, fuel: nat, st: State, s2: State, res: StmtResult)
    returns (n: nat)
    requires s.If? && Here(k, g, env, st) && Runs(k, g, s, env)
    requires Here(k, IfOf(g, s).elseStart, env, s2) && Keeps(g, st, s2) && Grows(g, IfOf(g, s).elseStart)
    requires res == if s.els.Some? then Exec(k.w, s.els.value, env, k.ret, s2.out, fuel) else Normal(env, s2.out)
    ensures StmtOutcome(k, g, LowerStmt(g, s), st, Go(k, s2, n), res, n, fuel)
    decreases fuel, 2, s, 1
  {
    IfJoins(k, g, s, env, st);
    IfScopes(k, g, s, env, st);
    hide Exec, Here, LowerExpr, LowerStmt, Extends, Runs, Go, StmtOutcome, IfOf, Joins, Keeps, Grows;
    var u := IfOf(g, s);
    if s.els.Some? {
      n := SimStmt(k, u.elseStart, s.els.value, env, fuel, s2);
    } else {
      n := 0;
      Nothing(k, u.elseStart, env, s2, fuel);
    }
    n := JoinOutcome(k, u.elseStart, u.elseEnd, u.end, s2, res, n, fuel);
    StmtRebase(k, g, u.elseStart, u.end, st, s2, Go(k, s2, n), res, n, fuel);
  }

  lemma Nothing(k: Context, g: Gen, env: Env, s: State, fuel: nat)
    requires Here(k, g, env, s)
    ensures StmtOutcome(k, g, g, s, Go(k, s, 0), Normal(env, s.out), 0, fuel)
  {
  }

  // ----- while -----

  function WhileOf(g: Gen, s: Stmt): WhileStages
    requires s.While?
  {
    var st := StagesOfWhile(g, s);
    if st.Some? then st.value else WhileStages(0, g, Lowered(g, None), g, g, g)
  }

  lemma WhileShapes(k: Context, g: Gen, s: Stmt, env: Env)
    requires s.While? && Runs(k, g, s, env)
    ensures var u := WhileOf(g, s);
      && StagesOfWhile(g, s) == Some(u) && u.end == LowerStmt(g, s)
      && LoopShape(g, u, k.lo) && LoopEndShape(g, u, k.lo) && u.test.operand.Some?
  {
    hide Settled, Tidy, Terminated, LowerStmt, LowerExpr, Extends, Waiting, LoopShape, LoopEndShape;
    WhileSucceeds(g, s, k.lo);
    ShapeOfLoop(g, s, k.lo);
    ShapeOfLoopEnd(g, s, k.lo);
  }

  lemma WhileExtends(k: Context, g: Gen, s: Stmt, env: Env)
    requires s.While? && Runs(k, g, s, env)
    ensures var u := WhileOf(g, s);
      && StagesOfWhile(g, s) == Some(u) && u.end == LowerStmt(g, s)
      && LoopShape(g, u, k.lo) && LoopEndShape(g, u, k.lo) && u.test.operand.Some?
      && Extends(u.bodyEnd.code, k.c) && (Open(u.bodyEnd) ==> Extends(Emit(u.bodyEnd, Br(u.l)).code, k.c))
      && Extends(u.bodyStart.code, k.c) && Extends(u.test.g.code, k.c) && Extends(u.loopStart.code, k.c)
  {
    hide Settled, Tidy, Terminated, LowerStmt, LowerExpr, Extends, Waiting;
    WhileShapes(k, g, s, env);
    var u := StagesOfWhile(g, s).value;
    ExtendsAttached(k.c, BranchIfOpen(u.bodyEnd, u.l), u.l + 2);
    ExtendsBranch(k.c, u.bodyEnd, u.l);
    ExtendsLater(k.c, u.bodyStart, u.bodyEnd);
    ExtendsEmit(k.c, u.test.g, CondBr(u.test.operand.value, u.l + 1, u.l + 2));
    ExtendsLater(k.c, u.loopStart, u.test.g);
  }

  /** All a pass through the loop needs to know, independent of the machine's state. */
  lemma WhileParts(k: Context, g: Gen, s: Stmt, env: Env, st: State)
    requires s.While? && Here(k, g, env, st) && Runs(k, g, s, env)
    ensures var u := WhileOf(g, s);
      && u.end == LowerStmt(g, s) && u.test == LowerExpr(u.loopStart, s.cond) && u.bodyEnd == LowerStmt(u.bodyStart, s.body)
      && Lowers(k, u.loopStart, s.cond) && NamesIn(s.cond) <= env.Keys && Runs(k, u.bodyStart, s.body, env)
      && WhileJumps(k, g, u) && WhileOrder(g, u)
  {
    hide Resolves, Refines, Extends, Match, Inside, Settled, Tidy, Terminated, LowerStmt, LowerExpr, Grows, WhileOrder;
    WhileExtends(k, g, s, env);
    ResolvedNames(k, g, env, st);
    var u := WhileOf(g, s);
    WhileInOrder(k, g, s, env);
    ReboundStmt(u.bodyStart, s.body, Visible(g.scopes), k.lo);
    ReboundParts(u.bodyStart, u.bodyEnd, Visible(g.scopes), BoundAfter(s.body, Visible(g.scopes)));
    RefinesWidens(g.scopes, u.bodyEnd.scopes, Visible(g.scopes));
    var i := CondBr(u.test.operand.value, u.l + 1, u.l + 2);
    assert u.bodyStart == SetInsert(Emit(u.test.g, i), u.l + 1);
    assert u.bodyStart.code == Emit(u.test.g, i).code;
  }

  /** The jumps between the loop's blocks. */
  ghost predicate WhileJumps(k: Context, g: Gen, u: WhileStages) {
    && u.loopStart.scopes == u.test.g.scopes == u.bodyStart.scopes == g.scopes && u.end.scopes == u.bodyEnd.scopes
    && Widens(g.scopes, u.bodyEnd.scopes)
    && Ready(u.loopStart, k.lo) && Ready(u.test.g, k.lo) && Ready(u.bodyStart, k.lo) && Ready(u.end, k.lo)
    && InsertBlock(u.loopStart) == InsertBlock(u.bodyStart) == InsertBlock(u.end) == []
    && u.loopStart.insert == u.l && u.bodyStart.insert == u.l + 1 && u.end.insert == u.l + 2
    && u.test.operand.Some? && ExprShape(u.loopStart, u.test, k.lo)
    && Extends(Emit(u.test.g, CondBr(u.test.operand.value, u.l + 1, u.l + 2)).code, k.c)
    && (Open(u.bodyEnd) ==> Extends(Emit(u.bodyEnd, Br(u.l)).code, k.c))
  }

  ghost predicate WhileOrder(g: Gen, u: WhileStages) {
    && Later(g, u.loopStart) && Later(u.loopStart, u.test.g) && Later(u.test.g, u.bodyStart)
    && Later(u.bodyStart, u.bodyEnd) && Later(u.bodyEnd, u.end)
  }

  lemma WhileInOrder(k: Context, g: Gen, s: Stmt, env: Env)
    requires s.While? && Runs(k, g, s, env)
    ensures WhileOrder(g, WhileOf(g, s))
  {
    WhileExtends(k, g, s, env);
    var u := WhileOf(g, s);
    hide Settled, Tidy, Terminated, LowerStmt, LowerExpr;
    RegsKept(u.bodyEnd, u.l, u.l + 2);
  }

  /** After the test: in the body, past the loop, or stopped. */
  lemma SimWhileTest(k: Context, g: Gen, s: Stmt, env: Env, v: Val, st: State, s1: State)
    requires s.While? && WhileJumps(k, g, WhileOf(g, s)) && WhileOrder(g, WhileOf(g, s))
    requires Here(k, WhileOf(g, s).loopStart, env, st)
    requires var u := WhileOf(g, s); ExprDone(u.loopStart, u.test, st, s1, v)
    ensures var u, s2 := WhileOf(g, s), Go(k, s1, 1);
      && s2.out == s1.out
      && (!v.BoolV? ==> s2.status == Faulted(TypeMismatch) && s2.callers == st.callers)
      && (v.BoolV? && v.b ==> Here(k, u.bodyStart, env, s2) && Keeps(u.loopStart, st, s2))
      && (v.BoolV? && !v.b ==> StmtDone(u.loopStart, u.end, st, s2, env))
  {
    var u := WhileOf(g, s);
    SimTest(k, u.test.g, u.test.g, u.test.operand.value, v, u.l + 1, u.l + 2, s1);
    hide Extends, Inside, Terminated, Go, WhileOf, Grows, Match;
    HereAfter(k, u.loopStart, u.test, env, st, s1, v);
    if v.BoolV? {
      var s2 := Go(k, s1, 1);
      if v.b {
        EnterByJump(k, u.test.g, u.bodyStart, env, s1);
      } else {
        Arrive(u.test.g, u.end, u.l + 2, env, s1);
      }
      KeepsTransitive(u.loopStart, u.test.g, st, s1, s2);
    }
  }

  lemma {:induction false} SimWhile(k: Context, g: Gen, s: Stmt, env: Env, fuel: nat, st: State) returns (n: nat)
    requires s.While? && Here(k, g, env, st) && Runs(k, g, s, env)
    ensures StmtOutcome(k, g, LowerStmt(g, s), st, Go(k, st, n), Exec(k.w, s, env, k.ret, st.out, fuel), n, fuel)
    decreases fuel, 2, s, 4
  {
    WhileParts(k, g, s, env, st);
    SimEnterWhile(k, g, s, env, st);
    hide Exec, Here, LowerStmt, Runs, Go, StmtOutcome, WhileOf, WhileJumps, Keeps;
    var u, s1, res := WhileOf(g, s), Go(k, st, 1), Exec(k.w, s, env, k.ret, st.out, fuel);
    n := SimLoop(k, g, s, env, fuel, s1);
    StmtRebaseLater(k, g, u.loopStart, u.end, st, s1, Go(k, s1, n), res, n, fuel);
    n := StmtSequel(k, g, u.end, st, st, res, 1, n, fuel);
  }

  lemma SimEnterWhile(k: Context, g: Gen, s: Stmt, env: Env, st: State)
    requires s.While? && Here(k, g, env, st) && Runs(k, g, s, env)
    ensures Here(k, WhileOf(g, s).loopStart, env, Go(k, st, 1)) && Keeps(g, st, Go(k, st, 1)) && Go(k, st, 1).out == st.out
  {
    hide Extends, Inside, Match, LowerExpr, LowerStmt, Settled, Tidy, Terminated, Waiting;
    WhileExtends(k, g, s, env);
    WhileInOrder(k, g, s, env);
    var u := WhileOf(g, s);
    var h := CreateBlock(CreateBlock(CreateBlock(g, Some(g.cur)), Some(g.cur)), None);
    assert u.loopStart == SetInsert(Emit(h, Br(u.l)), u.l);
    JumpOut(k, g, h, Br(u.l), st);
    ScopesNonEmpty(k, g, env, st);
    EnterByJump(k, g, u.loopStart, env, st);
  }

  lemma HereRuns(k: Context, g: Gen, env: Env, s: State)
    requires Here(k, g, env, s)
    ensures s.status.Running?
  {
  }

  lemma OutOfFuel(k: Context, g: Gen, h: Gen, s: State)
    requires s.status.Running?
    ensures StmtOutcome(k, g, h, s, Go(k, s, 0), Stopped(Timeout, s.out), 0, 0)
  {
  }

  /** From the top of the loop, once per unit of fuel. */
  lemma {:induction false} SimLoop(k: Context, g: Gen, s: Stmt, env: Env, fuel: nat, st: State) returns (n: nat)
    requires s.While? && WhileJumps(k, g, WhileOf(g, s)) && WhileOrder(g, WhileOf(g, s))
    requires var u := WhileOf(g, s);
      && Here(k, u.loopStart, env, st)
      && u.test == LowerExpr(u.loopStart, s.cond) && u.bodyEnd == LowerStmt(u.bodyStart, s.body)
      && Lowers(k, u.loopStart, s.cond) && NamesIn(s.cond) <= env.Keys && Runs(k, u.bodyStart, s.body, env)
    ensures StmtOutcome(k, WhileOf(g, s).loopStart, WhileOf(g, s).end, st, Go(k, st, n),
              Exec(k.w, s, env, k.ret, st.out, fuel), n, fuel)
    decreases fuel, 2, s, 1
  {
    HereRuns(k, WhileOf(g, s).loopStart, env, st);
    hide Eval, Exec, Here, Lowers, LowerExpr, LowerStmt, Runs, Go, StmtOutcome, ExprOutcome, ExprDone, WhileOf,
      WhileJumps, WhileOrder;
    ExecWhile(k.w, s, env, k.ret, st.out, fuel);
    if fuel == 0 {
      n := 0;
      OutOfFuel(k, WhileOf(g, s).loopStart, WhileOf(g, s).end, st);
    } else {
      var u, res := WhileOf(g, s), Exec(k.w, s, env, k.ret, st.out, fuel);
      n := SimExpr(k, u.loopStart, s.cond, env, fuel, st);
      var s1 := Go(k, st, n);
      var v := Eval(k.w, s.cond, env, st.out, fuel);
      if v.Value? {
        OutcomeValue(u.loopStart, u.test, st, s1, v, n, fuel);
        SimWhileTest(k, g, s, env, v.v, st, s1);
        var s2 := Go(k, s1, 1);
        n := SequelGo(k, st, n, 1);
        if !v.v.BoolV? {
          StmtFaults(k, u.loopStart, u.end, st, s2, v.out, n, fuel);
        } else if !v.v.b {
          LoopDone(k, g, s, env, st, s2, n, fuel);
        } else {
          var m := SimPass(k, g, s, env, fuel, st, s2, n, res);
          n := m;
        }
      } else {
        ExprHalts(k, u.loopStart, u.test, st, u.loopStart, u.end, st, s1, v, n, fuel);
      }
    }
  }

  lemma LoopDone(k: Context, g: Gen, s: Stmt, env: Env, st: State, t: State, n: nat, fuel: nat)
    requires s.While? && WhileJumps(k, g, WhileOf(g, s))
    requires StmtDone(WhileOf(g, s).loopStart, WhileOf(g, s).end, st, t, env)
    ensures StmtOutcome(k, WhileOf(g, s).loopStart, WhileOf(g, s).end, st, t, Normal(env, t.out), n, fuel)
  {
  }

  /** One pass through the body, `done` steps after `st`, and the rest of the loop. */
  lemma {:induction false} SimPass(k: Context, g: Gen, s: Stmt, env: Env, fuel: nat, st: State, s2: State, done: nat, res: StmtResult)
    returns (n: nat)
    requires s.While? && WhileJumps(k, g, WhileOf(g, s)) && WhileOrder(g, WhileOf(g, s))
    requires var u := WhileOf(g, s);
      && Here(k, u.loopStart, env, st)
      && u.test == LowerExpr(u.loopStart, s.cond) && u.bodyEnd == LowerStmt(u.bodyStart, s.body)
      && Lowers(k, u.loopStart, s.cond) && NamesIn(s.cond) <= env.Keys && Runs(k, u.bodyStart, s.body, env)
      && Here(k, u.bodyStart, env, s2) && Keeps(u.loopStart, st, s2)
    requires s2 == Go(k, st, done) && fuel > 0 && done > 0
    requires var b := Exec(k.w, s.body, env, k.ret, s2.out, fuel);
      res == if b.Normal? then Exec(k.w, s, Restrict(b.env, env.Keys), k.ret, b.out, fuel - 1) else b
    ensures StmtOutcome(k, WhileOf(g, s).loopStart, WhileOf(g, s).end, st, Go(k, st, n), res, n, fuel)
    decreases fuel, 2, s, 0
  {
    hide Exec, Here, Lowers, LowerExpr, LowerStmt, Runs, Go, StmtOutcome, WhileOf, WhileJumps, WhileOrder, Keeps;
    var u := WhileOf(g, s);
    n := SimStmt(k, u.bodyStart, s.body, env, fuel, s2);
    var s3 := Go(k, s2, n);
    var b := Exec(k.w, s.body, env, k.ret, s2.out, fuel);
    if b.Normal? {
      SureHasValue(k.w, s.body, env, k.ret, s2.out, fuel, {});
      SimLoopBack(k, g, s, env, b, st, s2, s3, n, fuel);
      var s4 := Go(k, s3, 1);
      var m := SimLoop(k, g, s, Restrict(b.env, env.Keys), fuel - 1, s4);
      StmtRebaseLater(k, u.loopStart, u.loopStart, u.end, st, s4, Go(k, s4, m), res, m, fuel - 1);
      n := SequelGo(k, s2, n, 1);
      n := SequelGo(k, st, done, n);
      n := LoopSequel(k, u.loopStart, u.end, st, st, res, n, m, fuel);
    } else {
      PassHalts(k, u.bodyStart, u.bodyEnd, u.loopStart, u.end, st, s2, s3, b, n, fuel);
      n := StmtSequel(k, u.loopStart, u.end, st, st, res, done, n, fuel);
    }
  }

  lemma PassHalts(k: Context, g1: Gen, h1: Gen, g: Gen, h: Gen, s: State, s1: State, t: State, res: StmtResult, n: nat, fuel: nat)
    requires StmtOutcome(k, g1, h1, s1, t, res, n, fuel) && !res.Normal? && Keeps(g, s, s1)
    ensures StmtOutcome(k, g, h, s, t, res, n, fuel)
  {
  }

  /** The body fell through: back to the top. */
  lemma SimLoopBack(k: Context, g: Gen, s: Stmt, env: Env, b: StmtResult, st: State, s2: State, s3: State, n: nat, fuel: nat)
    requires s.While? && WhileJumps(k, g, WhileOf(g, s)) && WhileOrder(g, WhileOf(g, s))
    requires var u := WhileOf(g, s);
      && Here(k, u.loopStart, env, st) && Keeps(u.loopStart, st, s2)
      && Runs(k, u.bodyStart, s.body, env)
      && StmtOutcome(k, u.bodyStart, u.bodyEnd, s2, s3, b, n, fuel) && b.Normal? && env.Keys <= b.env.Keys
    ensures var u, s4, env1 := WhileOf(g, s), Go(k, s3, 1), Restrict(b.env, env.Keys);
      && Here(k, u.loopStart, env1, s4) && Keeps(u.loopStart, st, s4) && s4.out == b.out
      && Later(u.loopStart, u.loopStart) && Runs(k, u.bodyStart, s.body, env1) && env1.Keys == env.Keys
  {
    var u := WhileOf(g, s);
    StepJump(k.c, k.w.ops, u.bodyEnd, u.l, s3);
    var s4 := Go(k, s3, 1);
    MatchRestricted(u.loopStart, u.bodyEnd, u.loopStart, env, b.env, st, s4) by {
      assert Match(u.bodyEnd, b.env, s4.cur) by { MatchMoved(u.bodyEnd, b.env, s3, s4); }
    }
    hide Extends, Match, WhileOf, LowerStmt;
    KeepsTransitive(u.loopStart, u.bodyStart, st, s2, s3);
    KeepsTransitive(u.loopStart, u.bodyEnd, st, s3, s4);
  }

  lemma MatchMoved(g: Gen, env: Env, s: State, t: State)
    requires Match(g, env, s.cur) && t.cur.regs == s.cur.regs && t.cur.cells == s.cur.cells
    ensures Match(g, env, t.cur)
  {
    forall x | x in env ensures VarMatches(g, env, t.cur, x) && CellOf(g, t.cur, x) == CellOf(g, s.cur, x) {
      assert VarMatches(g, env, s.cur, x);
    }
  }

  // ----- do-while -----

  /** The stages of a do-while; `test` is part of the code only if the body can fall through. */
  function DoOf(g: Gen, s: Stmt): DoWhileStages
    requires s.DoWhile?
  {
    var loopStart := StartDoWhile(g);
    var bodyEnd := LowerStmt(loopStart, s.body);
    DoWhileStages(NextLabel(g), loopStart, bodyEnd, LowerExpr(bodyEnd, s.cond), LowerStmt(g, s))
  }

  ghost predicate DoEntry(k: Context, g: Gen, u: DoWhileStages) {
    && Ready(u.loopStart, k.lo) && u.loopStart.insert == u.l && InsertBlock(u.loopStart) == []
    && u.loopStart.scopes == g.scopes && u.bodyEnd.scopes != []
    && Later(g, u.loopStart) && Later(u.loopStart, u.bodyEnd)
  }

  /** The test and the way out, if the body's end can be reached. */
  ghost predicate DoExit(k: Context, u: DoWhileStages, cond: Expr) {
    && Ready(u.bodyEnd, k.lo) && Lowers(k, u.bodyEnd, cond) && u.test == LowerExpr(u.bodyEnd, cond)
    && ExprShape(u.bodyEnd, u.test, k.lo) && u.test.operand.Some?
    && Extends(Emit(u.test.g, CondBr(u.test.operand.value, u.l, u.l + 1)).code, k.c)
    && Open(u.end) && InsertBlock(u.end) == [] && u.end.insert == u.l + 1 && u.end.scopes == u.bodyEnd.scopes
    && Later(u.bodyEnd, u.test.g) && Later(u.test.g, u.end)
  }

  /** Names visible before keep their cells through the body. */
  ghost predicate SameNames(g: Gen, h: Gen, env: Env) {
    forall x :: x in env ==> Lookup(h.scopes, x) == Lookup(g.scopes, x)
  }

  /** The names in the test are sure after the body. */
  ghost predicate TestNames(u: DoWhileStages, s: Stmt, env: Env)
    requires s.DoWhile?
  {
    Falls(s.body) ==> NamesIn(s.cond) <= SureAfter(s.body, Visible(u.loopStart.scopes), env.Keys)
  }

  lemma DoParts(k: Context, g: Gen, s: Stmt, env: Env, st: State)
    requires s.DoWhile? && Here(k, g, env, st) && Runs(k, g, s, env)
    ensures var u := DoOf(g, s);
      && DoEntry(k, g, u) && Runs(k, u.loopStart, s.body, env) && SameNames(u.loopStart, u.bodyEnd, env)
      && (Open(u.bodyEnd) ==> DoExit(k, u, s.cond)) && TestNames(u, s, env)
  {
    var u := DoOf(g, s);
    ResolvedNames(k, g, env, st);
    ShapeStartDoWhile(g, k.lo);
    ShapeStmt(u.loopStart, s.body, k.lo);
    ReboundStmt(u.loopStart, s.body, Visible(g.scopes), k.lo);
    ReboundParts(u.loopStart, u.bodyEnd, Visible(g.scopes), BoundAfter(s.body, Visible(g.scopes)));
    DoBodyExtends(k, g, s, env);
    if !Terminated(InsertBlock(u.bodyEnd)) {
      DoExitParts(k, g, s, env);
    }
  }

  lemma DoBodyExtends(k: Context, g: Gen, s: Stmt, env: Env)
    requires s.DoWhile? && Runs(k, g, s, env)
    ensures DoOf(g, s).bodyEnd.ok && Extends(DoOf(g, s).bodyEnd.code, k.c)
  {
    hide Settled, Tidy, Extends, StartDoWhile, LowerExpr, Attach;
    var u := DoOf(g, s);
    ShapeStartDoWhile(g, k.lo);
    ShapeStmt(u.loopStart, s.body, k.lo);
    if Terminated(InsertBlock(u.bodyEnd)) {
      ExtendsAttached(k.c, u.bodyEnd, u.l + 1);
    } else {
      ShapeExpr(u.bodyEnd, s.cond, k.lo);
      var i := CondBr(u.test.operand.value, u.l, u.l + 1);
      ExtendsAttached(k.c, Emit(u.test.g, i), u.l + 1);
      ExtendsEmit(k.c, u.test.g, i);
      ExtendsLater(k.c, u.bodyEnd, u.test.g);
    }
  }

  lemma DoExitParts(k: Context, g: Gen, s: Stmt, env: Env)
    requires s.DoWhile? && Runs(k, g, s, env) && !Terminated(InsertBlock(DoOf(g, s).bodyEnd))
    ensures DoExit(k, DoOf(g, s), s.cond)
  {
    DoSucceeds(g, s, k.lo);
    ShapeOfDo(g, s, k.lo);
    DoExitExtends(k, g, s, env);
    var u := DoOf(g, s);
    hide Settled, Tidy, LowerStmt, LowerExpr, StartDoWhile, Extends, Underway, StmtShape;
    assert u.end == StagesOfDoWhile(g, s).value.end;
    DoEndRegs(u.test.g, CondBr(u.test.operand.value, u.l, u.l + 1), u.l + 1);
    GrowsLater(u.bodyEnd, u.test.g);
  }

  lemma DoEndRegs(g: Gen, i: Instr, l: nat)
    ensures Later(g, SetInsert(Attach(Emit(g, i), l), l))
  {
  }

  lemma DoExitExtends(k: Context, g: Gen, s: Stmt, env: Env)
    requires s.DoWhile? && Runs(k, g, s, env) && !Terminated(InsertBlock(DoOf(g, s).bodyEnd))
    ensures var u := DoOf(g, s);
      u.test.operand.Some? && Extends(Emit(u.test.g, CondBr(u.test.operand.value, u.l, u.l + 1)).code, k.c)
      && Extends(u.test.g.code, k.c)
  {
    DoSucceeds(g, s, k.lo);
    DoTestOpen(g, s, k.lo);
    var u := DoOf(g, s);
    hide Settled, Tidy, LowerStmt, LowerExpr, StartDoWhile, Terminated, Extends, Ready;
    var i := CondBr(u.test.operand.value, u.l, u.l + 1);
    ExtendsAttached(k.c, Emit(u.test.g, i), u.l + 1);
    ExtendsEmit(k.c, u.test.g, i);
  }

  lemma DoTestOpen(g: Gen, s: Stmt, lo: nat)
    requires s.DoWhile? && Ready(g, lo) && StagesOfDoWhile(g, s).Some?
    ensures var t := DoOf(g, s).test.g; t.insert < |t.code.blocks|
  {
    ShapeOfDo(g, s, lo);
  }

  lemma SimEnterDo(k: Context, g: Gen, s: Stmt, env: Env, st: State)
    requires s.DoWhile? && Here(k, g, env, st) && Runs(k, g, s, env)
    ensures Here(k, DoOf(g, s).loopStart, env, Go(k, st, 1)) && Keeps(g, st, Go(k, st, 1)) && Go(k, st, 1).out == st.out
  {
    hide Extends, Inside, Match, DoExit, LowerStmt;
    DoParts(k, g, s, env, st);
    DoBodyExtends(k, g, s, env);
    var u := DoOf(g, s);
    DoStartExtends(k, g, s, env);
    var h := CreateBlock(CreateBlock(g, Some(g.cur)), None);
    assert u.loopStart == SetInsert(Emit(h, Br(u.l)), u.l);
    JumpOut(k, g, h, Br(u.l), st);
    ScopesNonEmpty(k, g, env, st);
    EnterByJump(k, g, u.loopStart, env, st);
  }

  lemma DoStartExtends(k: Context, g: Gen, s: Stmt, env: Env)
    requires s.DoWhile? && Runs(k, g, s, env)
    ensures Extends(DoOf(g, s).loopStart.code, k.c)
  {
    DoBodyExtends(k, g, s, env);
    var u := DoOf(g, s);
    ShapeStartDoWhile(g, k.lo);
    ShapeStmt(u.loopStart, s.body, k.lo);
    ExtendsLater(k.c, u.loopStart, u.bodyEnd);
  }

  lemma {:induction false} SimDoWhile(k: Context, g: Gen, s: Stmt, env: Env, fuel: nat, st: State) returns (n: nat)
    requires s.DoWhile? && Here(k, g, env, st) && Runs(k, g, s, env)
    ensures StmtOutcome(k, g, LowerStmt(g, s), st, Go(k, st, n), Exec(k.w, s, env, k.ret, st.out, fuel), n, fuel)
    decreases fuel, 2, s, 4
  {
    DoParts(k, g, s, env, st);
    SimEnterDo(k, g, s, env, st);
    DoRuns(g, s);
    hide Exec, Here, LowerStmt, Runs, Go, StmtOutcome, DoOf, DoExit, Keeps, Open;
    var u, s1, res := DoOf(g, s), Go(k, st, 1), Exec(k.w, s, env, k.ret, st.out, fuel);
    n := SimDoLoop(k, g, s, env, fuel, s1);
    StmtRebaseLater(k, g, u.loopStart, u.end, st, s1, Go(k, s1, n), res, n, fuel);
    n := StmtSequel(k, g, u.end, st, st, res, 1, n, fuel);
  }

  lemma DoRuns(g: Gen, s: Stmt)
    requires s.DoWhile?
    ensures DoOf(g, s).end == LowerStmt(g, s) && DoOf(g, s).bodyEnd == LowerStmt(DoOf(g, s).loopStart, s.body)
  {
  }

  ghost predicate DoReady(k: Context, g: Gen, s: Stmt, env: Env, st: State)
    requires s.DoWhile?
  {
    var u := DoOf(g, s);
    && DoEntry(k, g, u) && SameNames(u.loopStart, u.bodyEnd, env) && (Open(u.bodyEnd) ==> DoExit(k, u, s.cond))
    && Here(k, u.loopStart, env, st) && Runs(k, u.loopStart, s.body, env) && TestNames(u, s, env)
  }

  /** From the top of the body, once per unit of fuel. */
  lemma {:induction false} SimDoLoop(k: Context, g: Gen, s: Stmt, env: Env, fuel: nat, st: State) returns (n: nat)
    requires s.DoWhile? && DoReady(k, g, s, env, st)
    ensures StmtOutcome(k, DoOf(g, s).loopStart, DoOf(g, s).end, st, Go(k, st, n),
              Exec(k.w, s, env, k.ret, st.out, fuel), n, fuel)
    decreases fuel, 2, s, 3
  {
    ExecDoWhile(k.w, s, env, k.ret, st.out, fuel);
    if fuel == 0 {
      n := 0;
    } else {
      DoRuns(g, s);
      hide Eval, Exec, Here, LowerStmt, Runs, Go, StmtOutcome, DoOf, DoEntry, DoExit, SameNames, Open;
      var u, res := DoOf(g, s), Exec(k.w, s, env, k.ret, st.out, fuel);
      n := SimStmt(k, u.loopStart, s.body, env, fuel, st);
      var s1 := Go(k, st, n);
      var b := Exec(k.w, s.body, env, k.ret, st.out, fuel);
      if b.Normal? {
        SureHasValue(k.w, s.body, env, k.ret, st.out, fuel, Visible(u.loopStart.scopes));
        n := SimDoTest(k, g, s, env, b, fuel, st, s1, n, res);
      } else {
        SameBase(u.loopStart, st);
        PassHalts(k, u.loopStart, u.bodyEnd, u.loopStart, u.end, st, st, s1, b, n, fuel);
      }
    }
  }

  lemma SameBase(g: Gen, s: State)
    ensures Keeps(g, s, s)
  {
  }

  /** The body fell through `done` steps after `st`: the test, and the rest of the loop. */
  lemma {:induction false} SimDoTest(k: Context, g: Gen, s: Stmt, env: Env, b: StmtResult, fuel: nat,
                                     st: State, s1: State, done: nat, res: StmtResult)
    returns (n: nat)
    requires s.DoWhile? && DoReady(k, g, s, env, st) && fuel > 0
    requires b.Normal? && StmtOutcome(k, DoOf(g, s).loopStart, DoOf(g, s).bodyEnd, st, s1, b, done, fuel)
    requires NamesIn(s.cond) <= b.env.Keys && env.Keys <= b.env.Keys
    requires s1 == Go(k, st, done)
    requires var r := Eval(k.w, s.cond, b.env, b.out, fuel);
      && (r.Halted? ==> res == Stopped(r.why, r.out))
      && (r.Value? && !r.v.BoolV? ==> res == Stopped(IllTyped, r.out))
      && (r.Value? && r.v.BoolV? && !r.v.b ==> res == Normal(b.env, r.out))
      && (r.Value? && r.v.BoolV? && r.v.b ==>
            res == Exec(k.w, s, Restrict(b.env, env.Keys), k.ret, r.out, fuel - 1))
    ensures StmtOutcome(k, DoOf(g, s).loopStart, DoOf(g, s).end, st, Go(k, st, n), res, n, fuel)
    decreases fuel, 2, s, 2
  {
    DoCondition(k, g, s, env, b, st, s1, done, fuel);
    hide Eval, Exec, Here, Lowers, LowerExpr, Go, StmtOutcome, ExprOutcome, ExprDone, DoOf, DoReady, Keeps, Open;
    var u := DoOf(g, s);
    var m := SimExpr(k, u.bodyEnd, s.cond, b.env, fuel, s1);
    var s2 := Go(k, s1, m);
    var v := Eval(k.w, s.cond, b.env, b.out, fuel);
    n := SequelGo(k, st, done, m);
    if v.Value? {
      OutcomeValue(u.bodyEnd, LowerExpr(u.bodyEnd, s.cond), s1, s2, v, m, fuel);
      n := SimDoRest(k, g, s, env, b.env, v.v, fuel, st, s1, s2, n, res);
    } else {
      CondHalts(k, u, s.cond, st, s1, s2, v, m, n, fuel);
    }
  }

  /** The test's value is known `done` steps after `st`. */
  lemma {:induction false} SimDoRest(k: Context, g: Gen, s: Stmt, env: Env, env1: Env, v: Val, fuel: nat,
                                     st: State, s1: State, s2: State, done: nat, res: StmtResult)
    returns (n: nat)
    requires s.DoWhile? && DoReady(k, g, s, env, st) && fuel > 0
    requires var u := DoOf(g, s);
      && Here(k, u.bodyEnd, env1, s1) && Open(u.bodyEnd) && Open(u.end)
      && Keeps(u.loopStart, st, s1) && ExprDone(u.bodyEnd, LowerExpr(u.bodyEnd, s.cond), s1, s2, v)
    requires s2 == Go(k, st, done) && env.Keys <= env1.Keys
    requires res ==
      if !v.BoolV? then Stopped(IllTyped, s2.out)
      else if v.b then Exec(k.w, s, Restrict(env1, env.Keys), k.ret, s2.out, fuel - 1)
      else Normal(env1, s2.out)
    ensures StmtOutcome(k, DoOf(g, s).loopStart, DoOf(g, s).end, st, Go(k, st, n), res, n, fuel)
    decreases fuel, 2, s, 1
  {
    hide Eval, Exec, Here, Lowers, LowerExpr, Go, StmtOutcome, ExprOutcome, ExprDone, DoOf, DoReady, Keeps, Open;
    var u := DoOf(g, s);
    SimDoBranch(k, g, s, env, env1, v, st, s1, s2);
    var s3 := Go(k, s2, 1);
    n := SequelGo(k, st, done, 1);
    if !v.BoolV? {
      StmtFaults(k, u.loopStart, u.end, st, s3, s2.out, n, fuel);
    } else if v.b {
      var l := SimDoLoop(k, g, s, Restrict(env1, env.Keys), fuel - 1, s3);
      LaterSelf(u.loopStart);
      StmtRebaseLater(k, u.loopStart, u.loopStart, u.end, st, s3, Go(k, s3, l), res, l, fuel - 1);
      n := LoopSequel(k, u.loopStart, u.end, st, st, res, n, l, fuel);
    } else {
      DoDone(k, u, env1, st, s3, n, fuel);
    }
  }

  lemma LaterSelf(g: Gen)
    ensures Later(g, g)
  {
  }

  lemma DoDone(k: Context, u: DoWhileStages, env: Env, st: State, t: State, n: nat, fuel: nat)
    requires StmtDone(u.loopStart, u.end, st, t, env) && Open(u.end)
    ensures StmtOutcome(k, u.loopStart, u.end, st, t, Normal(env, t.out), n, fuel)
  {
  }

  lemma CondHalts(k: Context, u: DoWhileStages, cond: Expr, st: State, s1: State, t: State, v: ExprResult, m: nat, n: nat, fuel: nat)
    requires ExprOutcome(u.bodyEnd, LowerExpr(u.bodyEnd, cond), s1, t, v, m, fuel) && v.Halted? && m <= n
    requires s1.callers == st.callers
    ensures StmtOutcome(k, u.loopStart, u.end, st, t, Stopped(v.why, v.out), n, fuel)
  {
  }

  lemma DoCondition(k: Context, g: Gen, s: Stmt, env: Env, b: StmtResult, st: State, s1: State, n: nat, fuel: nat)
    requires s.DoWhile? && DoReady(k, g, s, env, st)
    requires b.Normal? && StmtOutcome(k, DoOf(g, s).loopStart, DoOf(g, s).bodyEnd, st, s1, b, n, fuel)
    ensures var u := DoOf(g, s);
      && Here(k, u.bodyEnd, b.env, s1) && Lowers(k, u.bodyEnd, s.cond) && s1.out == b.out
      && Open(u.bodyEnd) && Open(u.end) && Keeps(u.loopStart, st, s1) && s1.callers == st.callers
  {
    var u := DoOf(g, s);
    hide Match, Extends, DoOf, LowerStmt, LowerExpr;
    InsideLater(k.w, k.c, u.loopStart, u.bodyEnd, k.ret);
  }

  /** After the test: back to the body, past the loop, or stopped. */
  lemma SimDoBranch(k: Context, g: Gen, s: Stmt, env: Env, env1: Env, v: Val, st: State, s1: State, s2: State)
    requires s.DoWhile? && DoReady(k, g, s, env, st)
    requires var u := DoOf(g, s);
      && Here(k, u.bodyEnd, env1, s1) && Open(u.bodyEnd)
      && Keeps(u.loopStart, st, s1) && ExprDone(u.bodyEnd, LowerExpr(u.bodyEnd, s.cond), s1, s2, v)
    requires env.Keys <= env1.Keys
    ensures var u, s3 := DoOf(g, s), Go(k, s2, 1);
      && s3.out == s2.out
      && (!v.BoolV? ==> s3.status == Faulted(TypeMismatch) && s3.callers == st.callers)
      && (v.BoolV? && v.b ==>
            Keeps(u.loopStart, st, s3) && DoReady(k, g, s, Restrict(env1, env.Keys), s3))
      && (v.BoolV? && !v.b ==> StmtDone(u.loopStart, u.end, st, s3, env1))
  {
    var u := DoOf(g, s);
    SimTest(k, u.test.g, u.test.g, u.test.operand.value, v, u.l, u.l + 1, s2);
    hide Extends, Terminated, DoOf, LowerStmt, LowerExpr, Grows, Linked, Settled, Tidy;
    HereAfter(k, u.bodyEnd, u.test, env1, s1, s2, v);
    if v.BoolV? {
      var s3 := Go(k, s2, 1);
      KeepsTransitive(u.loopStart, u.bodyEnd, st, s1, s2);
      KeepsTransitive(u.loopStart, u.test.g, st, s2, s3);
      if v.b {
        DoAgain(k, g, s, env, env1, st, s2, s3);
      } else {
        Arrive(u.test.g, u.end, u.l + 1, env1, s2);
      }
    }
  }

  lemma DoAgain(k: Context, g: Gen, s: Stmt, env: Env, env1: Env, st: State, s2: State, s3: State)
    requires s.DoWhile? && DoReady(k, g, s, env, st) && Open(DoOf(g, s).bodyEnd) && env.Keys <= env1.Keys
    requires var u := DoOf(g, s); Here(k, u.test.g, env1, s2) && s3 == Jump(s2, u.l)
    ensures DoReady(k, g, s, Restrict(env1, env.Keys), s3)
  {
    hide Extends, Terminated, DoOf, LowerStmt, LowerExpr, Grows, Match, Linked;
    var u := DoOf(g, s);
    MatchMoved(u.test.g, env1, s2, s3);
    MatchRestricted(u.loopStart, u.test.g, u.loopStart, env, env1, st, s3);
  }

  // ----- functions -----

  /** Function `i` is visited from this state. */
  function Before(p: Program, i: nat): Gen
    requires i < |p|
  {
    LowerProgram(p[..i])
  }

  lemma BodyParts(k: Context, i: nat)
    requires Linked(k.w, k.c) && i < |k.w.p| && k == BodyContext(k.w, k.c, i)
    ensures var g, d := Before(k.w.p, i), k.w.p[i];
      && Ready(StartFunction(g, d), k.lo) && Ready(BodyStart(g, d), k.lo)
      && BodyEnd(g, d).ok && Extends(BodyStart(g, d).code, k.c) && Extends(BodyEnd(g, d).code, k.c)
      && (Open(BodyEnd(g, d)) ==> Extends(Emit(BodyEnd(g, d), Unreachable).code, k.c))
      && Grows(StartFunction(g, d), BodyStart(g, d))
      && i < |k.c.fns| && k.c.fns[i].entry == NextLabel(g)
      && AssuredFunction(d) && NoCallStmts(d.body)
  {
    var g, d := Before(k.w.p, i), k.w.p[i];
    assert LinkedFunction(k.w.p, k.c, i);
    ShapeStartFunction(g, d);
    ShapeBody(g, d);
    var g1, g2 := BodyStart(g, d), BodyEnd(g, d);
    if g2.ok && !Terminated(InsertBlock(g2)) {
      ExtendsEmit(k.c, g2, Unreachable);
    }
    ExtendsLater(k.c, g1, g2);
    FunctionAppends(g, d);
    assert LowerFunction(g, d).code.fns <= k.c.fns;
    assert LowerFunction(g, d).code.fns[i] == Fn(d.name, ToLTypes(d.params), ToLType(d.ty), NextLabel(g));
  }

  lemma InsideBody(k: Context, i: nat)
    requires Linked(k.w, k.c) && i < |k.w.p| && k == BodyContext(k.w, k.c, i)
    ensures Inside(k.w, k.c, StartFunction(Before(k.w.p, i), k.w.p[i]), k.ret)
    ensures StartFunction(Before(k.w.p, i), k.w.p[i]).scopes == [map[]]
  {
    var g, d := Before(k.w.p, i), k.w.p[i];
    assert LinkedFunction(k.w.p, k.c, i);
    FunctionAppends(g, d);
    ShapeStartFunction(g, d);
  }

  lemma NothingBound(g: Gen, fr: Frame)
    requires g.scopes == [map[]]
    ensures Match(g, map[], fr)
  {
    assert g.scopes[..0] == [];
    forall x ensures Lookup(g.scopes, x).None? {
    }
  }

  /** The prologue: the parameters are bound, and the body is about to run. */
  lemma SimPrologue(k: Context, i: nat, vs: seq<Val>, s: State) returns (n: nat)
    requires Linked(k.w, k.c) && i < |k.w.p| && i < |k.c.fns| && k == BodyContext(k.w, k.c, i)
    requires |vs| == |k.w.p[i].params| && Entered(k.c, i, vs, s)
    ensures var g1, d, t := BodyStart(Before(k.w.p, i), k.w.p[i]), k.w.p[i], Go(k, s, n);
      && Here(k, g1, Bind(d.params, vs), t) && Runs(k, g1, d.body, Bind(d.params, vs))
      && t.out == s.out && t.callers == s.callers && t.cur.dst == s.cur.dst
  {
    var g, d := Before(k.w.p, i), k.w.p[i];
    var g0, g1 := StartFunction(g, d), BodyStart(g, d);
    BodyParts(k, i);
    InsideBody(k, i);
    NothingBound(g0, s.cur);
    NothingResolved(g, d);
    ParamsResolve(g0, d.params);
    ResolvesVisible(g1.scopes, ParamNames(d.params));
    ShapeStartFunction(g, d);
    BindNames(d.params, vs);
    hide Extends, Match, Grows, Linked, LowerStmt, LowerParams, LowerProgram, Terminated, Tidy;
    assert At(g0, s);
    n := SimParams(k.c, k.w.ops, g0, d.params, vs, s, k.lo);
    GrowsLater(g0, g1) by { ShapeBody(g, d); }
    InsideLater(k.w, k.c, g0, g1, k.ret);
  }

  lemma {:induction false} SimCallee(w: World, c: Code, i: nat, vs: seq<Val>, fuel: nat, s: State) returns (n: nat)
    requires Linked(w, c) && i < |w.p| && i < |c.fns| && |vs| == |w.p[i].params| && Entered(c, i, vs, s)
    ensures CallOutcome(BodyContext(w, c, i), s, Go(BodyContext(w, c, i), s, n), CallFunction(w, i, vs, s.out, fuel), n, fuel)
    decreases fuel, 0, 1
  {
    var k := BodyContext(w, c, i);
    var res := CallFunction(w, i, vs, s.out, fuel);
    CallBody(w, i, vs, s.out, fuel);
    if fuel == 0 {
      n := 0;
    } else {
      ContextOf(w, c, i);
      hide LowerProgram, BodyContext, Before, Inside, CallFunction, CallOutcome, Exec, Linked;
      n := SimEntered(k, i, vs, fuel, s, res);
    }
  }

  lemma {:induction false} SimEntered(k: Context, i: nat, vs: seq<Val>, fuel: nat, s: State, res: ExprResult) returns (n: nat)
    requires Linked(k.w, k.c) && i < |k.w.p| && i < |k.c.fns| && k == BodyContext(k.w, k.c, i)
    requires |vs| == |k.w.p[i].params| && Entered(k.c, i, vs, s) && fuel > 0
    requires res == AsCall(Exec(k.w, k.w.p[i].body, Bind(k.w.p[i].params, vs), k.w.p[i].ty, s.out, fuel - 1))
    ensures CallOutcome(k, s, Go(k, s, n), res, n, fuel)
    decreases fuel, 0, 0
  {
    hide Exec, Here, Runs, Go, StmtOutcome, CallOutcome, Linked, LowerStmt, BodyStart, Before, BodyContext,
      LowerProgram, AsCall, Bind;
    ContextOf(k.w, k.c, i);
    var d, g1 := k.w.p[i], BodyStart(Before(k.w.p, i), k.w.p[i]);
    var m := SimPrologue(k, i, vs, s);
    var s1, env, f := Go(k, s, m), Bind(d.params, vs), fuel - 1;
    var r := Exec(k.w, d.body, env, k.ret, s1.out, f);
    var l := SimStmt(k, g1, d.body, env, f, s1);
    n := BodyOutcome(k, i, vs, fuel, s, s1, m, l, r, res);
  }

  lemma ContextOf(w: World, c: Code, i: nat)
    requires i < |w.p|
    ensures var k := BodyContext(w, c, i); k.w == w && k.c == c && k.ret == w.p[i].ty
  {
  }

  lemma BodyOutcome(k: Context, i: nat, vs: seq<Val>, fuel: nat, s: State, s1: State, m: nat, n: nat, r: StmtResult, res: ExprResult)
    returns (sum: nat)
    requires Linked(k.w, k.c) && i < |k.w.p| && k == BodyContext(k.w, k.c, i) && fuel > 0
    requires s1 == Go(k, s, m) && s1.callers == s.callers && s1.cur.dst == s.cur.dst
    requires var g, d := Before(k.w.p, i), k.w.p[i];
      StmtOutcome(k, BodyStart(g, d), LowerStmt(BodyStart(g, d), d.body), s1, Go(k, s1, n), r, n, fuel - 1)
    requires res == AsCall(r)
    ensures CallOutcome(k, s, Go(k, s, sum), res, sum, fuel)
  {
    hide Linked, LowerStmt, LowerProgram, Before, BodyStart, BodyContext, Match, Extends;
    sum := SequelGo(k, s, m, n);
    if r.Normal? {
      FallsOff(k, i, Go(k, s1, n));
      sum := SequelGo(k, s, sum, 1);
    }
  }

  /** The end of the body is reached: the trailing instruction is `unreachable`. */
  lemma FallsOff(k: Context, i: nat, s: State)
    requires Linked(k.w, k.c) && i < |k.w.p| && k == BodyContext(k.w, k.c, i)
    requires var g, d := Before(k.w.p, i), k.w.p[i];
      var h := LowerStmt(BodyStart(g, d), d.body);
      Open(h) && At(h, s)
    ensures var t := Go(k, s, 1); t.status == ReachedUnreachable && t.out == s.out && t.callers == s.callers
  {
    hide Linked, LowerStmt, LowerProgram, Before, Extends;
    BodyParts(k, i);
    FetchInstr(k.c, k.w.ops, BodyEnd(Before(k.w.p, i), k.w.p[i]), Unreachable, s);
  }
}
