/** When code generation reports no error: a rule on trees.

    Its errors are a name that no level of the scope stack binds, which the parser with one flat scope
    per function does not notice, a call of a function that is not there or takes another number of
    arguments, which the parser does not count, and a minus sign on what is no number. */
module Acceptance {
  import opened Wrappers
  import opened Ast
  import opened Ir
  import opened Lowering
  import opened Shape
  import opened Visits
  import opened Scoping
  import opened FlowGraph
  import opened Declarations

  /** The functions that can be called and the numbers of their parameters. */
  type Arities = map<string, nat>

  predicate AcceptsExpr(ar: Arities, bound: set<string>, e: Expr)
    decreases e
  {
    match e
    case Var(x, _) => x in bound
    case Binary(_, _, l, r) => AcceptsExpr(ar, bound, l) && AcceptsExpr(ar, bound, r)
    case Unary(op, sub) => AcceptsExpr(ar, bound, sub) && (op.Neg? ==> sub.Type() == INTEGER || sub.Type() == FLOAT)
    case Call(f, args, _) => f in ar && ar[f] == |args| && AcceptsAll(ar, bound, args)
    case _ => true
  }

  predicate AcceptsAll(ar: Arities, bound: set<string>, es: seq<Expr>)
    decreases es
  {
    es == [] || (AcceptsExpr(ar, bound, es[0]) && AcceptsAll(ar, bound, es[1..]))
  }

  predicate AcceptsStmt(ar: Arities, bound: set<string>, s: Stmt)
    decreases s
  {
    match s
    case Assign(_, _, e) => AcceptsExpr(ar, bound, e)
    case Print(e) => AcceptsExpr(ar, bound, e)
    case Return(e) => AcceptsExpr(ar, bound, e)
    case CallStmt(_) => true
    case Block(ss) => AcceptsSeq(ar, bound, ss)
    case If(c, thn, els) =>
      && AcceptsExpr(ar, bound, c) && AcceptsStmt(ar, bound, thn)
      && (els.Some? ==> AcceptsStmt(ar, BoundAfter(thn, bound), els.value))
    case While(c, body) => AcceptsExpr(ar, bound, c) && AcceptsStmt(ar, bound, body)
    case DoWhile(body, c) =>
      AcceptsStmt(ar, bound, body) && (!Ends(body) ==> AcceptsExpr(ar, BoundAfter(body, bound), c))
  }

  /** What comes after a statement that ends its block is never visited. */
  predicate AcceptsSeq(ar: Arities, bound: set<string>, ss: seq<Stmt>)
    decreases ss
  {
    ss == [] ||
    (AcceptsStmt(ar, bound, ss[0]) && (!Ends(ss[0]) ==> AcceptsSeq(ar, BoundAfter(ss[0], bound), ss[1..])))
  }

  /** Of two functions with one name the later counts. */
  function AritiesOf(p: Program): Arities {
    if p == [] then map[] else AritiesOf(p[..|p| - 1])[p[|p| - 1].name := |p[|p| - 1].params|]
  }

  /** A body sees its own function and those before it. */
  predicate AcceptsProgram(p: Program) {
    forall i :: 0 <= i < |p| ==> AcceptsStmt(AritiesOf(p[..i + 1]), ParamNames(p[i].params), p[i].body)
  }

  // ----- expressions -----

  /** The generator knows these functions. */
  ghost predicate Callable(g: Gen, ar: Arities) {
    && (forall f :: f in ar <==> f in g.funcs)
    && forall f :: f in ar ==> g.funcs[f] < |g.code.fns| && |g.code.fns[g.funcs[f]].params| == ar[f]
  }

  /** No error so far, and these names and functions are known. */
  ghost predicate Poised(g: Gen, ar: Arities, bound: set<string>, lo: nat) {
    g.ok && Ready(g, lo) && Resolves(g.scopes, bound) && Callable(g, ar) && g.cur < |g.code.fns|
  }

  lemma PoisedLater(g: Gen, h: Gen, ar: Arities, bound: set<string>, after: set<string>, lo: nat)
    requires Poised(g, ar, bound, lo) && Grows(g, h) && h.ok && Ready(h, lo) && Resolves(h.scopes, after)
    ensures Poised(h, ar, after, lo)
  {
  }

  /** After an expression. */
  lemma PoisedAfter(g: Gen, e: Expr, ar: Arities, bound: set<string>, lo: nat)
    requires Poised(g, ar, bound, lo)
    ensures var r := LowerExpr(g, e); r.g.ok ==> r.operand.Some? && Poised(r.g, ar, bound, lo)
  {
    hide Ready, LowerExpr, Callable, Settled;
    ShapeExpr(g, e, lo);
    var r := LowerExpr(g, e);
    if r.g.ok {
      PoisedLater(g, r.g, ar, bound, bound, lo);
    }
  }

  lemma {:induction false} ExprAccepted(g: Gen, e: Expr, ar: Arities, bound: set<string>, lo: nat)
    requires Poised(g, ar, bound, lo)
    ensures LowerExpr(g, e).g.ok <==> AcceptsExpr(ar, bound, e)
    decreases e
  {
    hide Ready;
    match e
    case Var(_, _) =>
    case BoolLit(_) =>
    case IntLit(_) =>
    case FloatLit(_) =>
    case Binary(_, _, _, _) => BinaryAccepted(g, e, ar, bound, lo);
    case Unary(_, sub) =>
      ExprAccepted(g, sub, ar, bound, lo);
      PoisedAfter(g, sub, ar, bound, lo);
    case Call(f, args, _) =>
      if f in ar && |args| == ar[f] {
        ArgsAccepted(g, args, g.code.fns[g.funcs[f]].params, ar, bound, lo);
      }
  }

  lemma {:induction false} BinaryAccepted(g: Gen, e: Expr, ar: Arities, bound: set<string>, lo: nat)
    requires e.Binary? && Poised(g, ar, bound, lo)
    ensures LowerExpr(g, e).g.ok <==> AcceptsExpr(ar, bound, e)
    decreases e, 0
  {
    hide Ready, Callable, Resolves, StartShortCircuit, Underway;
    ExprAccepted(g, e.lhs, ar, bound, lo);
    PoisedAfter(g, e.lhs, ar, bound, lo);
    var r1 := LowerExpr(g, e.lhs);
    if r1.g.ok {
      if e.op.And? || e.op.Or? {
        var g2 := StartShortCircuit(r1.g, e.op, r1.operand.value);
        StartPoised(r1.g, e.op, r1.operand.value, ar, bound, lo);
        ExprAccepted(g2, e.rhs, ar, bound, lo);
        PoisedAfter(g2, e.rhs, ar, bound, lo);
      } else {
        ExprAccepted(r1.g, e.rhs, ar, bound, lo);
        PoisedAfter(r1.g, e.rhs, ar, bound, lo);
      }
    }
  }

  lemma StartPoised(g: Gen, op: BinaryOp, v: Operand, ar: Arities, bound: set<string>, lo: nat)
    requires Poised(g, ar, bound, lo)
    ensures Poised(StartShortCircuit(g, op, v), ar, bound, lo)
  {
    hide Ready, Callable, Resolves, StartShortCircuit, Settled, Tidy;
    ShapeStartShortCircuit(g, op, v, lo);
    PoisedLater(g, StartShortCircuit(g, op, v), ar, bound, bound, lo);
  }

  lemma {:induction false} ArgsAccepted(g: Gen, args: seq<Expr>, params: seq<LType>, ar: Arities, bound: set<string>, lo: nat)
    requires |args| == |params| && Poised(g, ar, bound, lo)
    ensures LowerArgs(g, args, params).g.ok <==> AcceptsAll(ar, bound, args)
    decreases args
  {
    hide Ready, Callable, Resolves, LowerCast, LowerExpr;
    if args != [] {
      ExprAccepted(g, args[0], ar, bound, lo);
      PoisedAfter(g, args[0], ar, bound, lo);
      var r1 := LowerExpr(g, args[0]);
      if r1.g.ok {
        var r2 := LowerCast(r1.g, r1.operand.value, params[0]);
        CastPoised(r1.g, r1.operand.value, params[0], ar, bound, lo);
        ArgsAccepted(r2.g, args[1..], params[1..], ar, bound, lo);
      }
    }
  }

  lemma CastPoised(g: Gen, v: Operand, to: LType, ar: Arities, bound: set<string>, lo: nat)
    requires Poised(g, ar, bound, lo)
    ensures Poised(LowerCast(g, v, to).g, ar, bound, lo)
  {
    ShapeCast(g, v, to, lo);
  }

  // ----- statements -----

  lemma {:induction false} StmtAccepted(g: Gen, s: Stmt, ar: Arities, bound: set<string>, lo: nat)
    requires Poised(g, ar, bound, lo)
    ensures LowerStmt(g, s).ok <==> AcceptsStmt(ar, bound, s)
    decreases s
  {
    hide Poised, LowerExpr;
    match s
    case Assign(x, t, e) =>
      OperandAccepted(g, e, ar, bound, lo);
      AssignOk(LowerExpr(g, e).g, x, t, e.Type(), LowerExpr(g, e).operand);
    case Print(e) =>
      OperandAccepted(g, e, ar, bound, lo);
    case Return(e) =>
      OperandAccepted(g, e, ar, bound, lo);
    case CallStmt(_) => PoisedOk(g, ar, bound, lo);
    case Block(ss) =>
      PushPoised(g, ar, bound, lo);
      SeqAccepted(g.(scopes := g.scopes + [map[]]), ss, ar, bound, lo);
    case If(_, _, _) => IfAccepted(g, s, ar, bound, lo);
    case While(_, _) => WhileAccepted(g, s, ar, bound, lo);
    case DoWhile(_, _) => DoAccepted(g, s, ar, bound, lo);
  }

  lemma PoisedOk(g: Gen, ar: Arities, bound: set<string>, lo: nat)
    requires Poised(g, ar, bound, lo)
    ensures g.ok && Ready(g, lo) && Resolves(g.scopes, bound) && g.cur < |g.code.fns|
  {
  }

  lemma OperandAccepted(g: Gen, e: Expr, ar: Arities, bound: set<string>, lo: nat)
    requires Poised(g, ar, bound, lo)
    ensures var r := LowerExpr(g, e);
      (r.g.ok <==> AcceptsExpr(ar, bound, e)) && (r.g.ok ==> r.operand.Some? && Poised(r.g, ar, bound, lo))
  {
    hide Poised, LowerExpr;
    ExprAccepted(g, e, ar, bound, lo);
    PoisedAfter(g, e, ar, bound, lo);
  }

  /** Storing a value is no error. */
  lemma AssignOk(g: Gen, x: string, t: TType, from: TType, v: Option<Operand>)
    ensures v.Some? ==> LowerAssign(g, x, t, from, v.value).ok == g.ok
  {
  }

  lemma PushPoised(g: Gen, ar: Arities, bound: set<string>, lo: nat)
    requires Poised(g, ar, bound, lo)
    ensures Poised(g.(scopes := g.scopes + [map[]]), ar, bound, lo)
  {
    PushedReady(g, bound, lo);
  }

  lemma {:induction false} SeqAccepted(g: Gen, ss: seq<Stmt>, ar: Arities, bound: set<string>, lo: nat)
    requires Poised(g, ar, bound, lo)
    ensures LowerSeq(g, ss).ok <==> AcceptsSeq(ar, bound, ss)
    decreases ss
  {
    hide Poised, LowerStmt;
    if ss == [] {
      PoisedOk(g, ar, bound, lo);
    } else {
      var g1 := LowerStmt(g, ss[0]);
      StmtAccepted(g, ss[0], ar, bound, lo);
      if g1.ok {
        StmtPoised(g, ss[0], ar, bound, lo);
        if !Ends(ss[0]) {
          SeqAccepted(g1, ss[1..], ar, BoundAfter(ss[0], bound), lo);
        }
      }
    }
  }

  /** After a statement: it has ended the block, or the next can be visited. */
  lemma StmtPoised(g: Gen, s: Stmt, ar: Arities, bound: set<string>, lo: nat)
    requires Poised(g, ar, bound, lo) && LowerStmt(g, s).ok
    ensures var h := LowerStmt(g, s);
      && (Terminated(InsertBlock(h)) <==> Ends(s)) && Grows(g, h) && Resolves(h.scopes, BoundAfter(s, bound))
      && (!Ends(s) ==> Poised(h, ar, BoundAfter(s, bound), lo))
  {
    hide Settled, Tidy, Callable, Resolves, Refines, LowerStmt;
    ShapeStmt(g, s, lo);
    EndsExactly(g, s, lo);
    ReboundStmt(g, s, bound, lo);
    ReboundParts(g, LowerStmt(g, s), bound, BoundAfter(s, bound));
    if !Ends(s) {
      PoisedLater(g, LowerStmt(g, s), ar, bound, BoundAfter(s, bound), lo);
    }
  }

  lemma {:induction false} IfAccepted(g: Gen, s: Stmt, ar: Arities, bound: set<string>, lo: nat)
    requires s.If? && Poised(g, ar, bound, lo)
    ensures LowerStmt(g, s).ok <==> AcceptsStmt(ar, bound, s)
    decreases s, 0
  {
    hide Poised, LowerExpr, LowerStmt, StartIf, BranchIfOpen, BoundAfter;
    IfEquation(g, s);
    OperandAccepted(g, s.cond, ar, bound, lo);
    var r := LowerExpr(g, s.cond);
    if r.g.ok {
      var l, g2 := NextLabel(r.g), StartIf(r.g, r.operand.value);
      IfPoised(r.g, r.operand.value, ar, bound, lo);
      StmtAccepted(g2, s.thn, ar, bound, lo);
      var g3 := LowerStmt(g2, s.thn);
      if g3.ok {
        var g4 := SetInsert(Attach(BranchIfOpen(g3, l + 2), l + 1), l + 1);
        ElsePoised(r.g, r.operand.value, s.thn, ar, bound, lo);
        JoinOk(g3, l + 2, l + 1);
        if s.els.Some? {
          StmtAccepted(g4, s.els.value, ar, BoundAfter(s.thn, bound), lo);
          JoinOk(LowerStmt(g4, s.els.value), l + 2, l + 2);
        } else {
          JoinOk(g4, l + 2, l + 2);
        }
      }
    }
  }

  lemma JoinOk(g: Gen, target: nat, next: nat)
    ensures SetInsert(Attach(BranchIfOpen(g, target), next), next).ok == g.ok
  {
  }

  lemma IfPoised(g: Gen, c: Operand, ar: Arities, bound: set<string>, lo: nat)
    requires Poised(g, ar, bound, lo)
    ensures Poised(StartIf(g, c), ar, bound, lo)
  {
    hide Settled, Tidy, Callable, Resolves, StartIf;
    ShapeStartIf(g, c, lo);
    PoisedLater(g, StartIf(g, c), ar, bound, bound, lo);
  }

  /** At the start of the second arm what the first has bound is known. */
  lemma ElsePoised(g: Gen, c: Operand, thn: Stmt, ar: Arities, bound: set<string>, lo: nat)
    requires Poised(g, ar, bound, lo) && LowerStmt(StartIf(g, c), thn).ok
    ensures var l := NextLabel(g);
      Poised(SetInsert(Attach(BranchIfOpen(LowerStmt(StartIf(g, c), thn), l + 2), l + 1), l + 1), ar, BoundAfter(thn, bound), lo)
  {
    hide Settled, Tidy, Callable, Resolves, StartIf, LowerStmt, BranchIfOpen, Attach;
    var l, g2 := NextLabel(g), StartIf(g, c);
    IfPoised(g, c, ar, bound, lo);
    ShapeStartIf(g, c, lo);
    StmtPoised(g2, thn, ar, bound, lo);
    var g3 := LowerStmt(g2, thn);
    ShapeStmt(g2, thn, lo);
    ShapeNested(g, g2, g3, {l + 1, l + 2}, lo);
    ShapeJoin(g, g3, l + 2, l + 1, {l + 1, l + 2}, {l + 2}, lo);
    PoisedLater(g, SetInsert(Attach(BranchIfOpen(g3, l + 2), l + 1), l + 1), ar, bound, BoundAfter(thn, bound), lo);
  }

  lemma {:induction false} WhileAccepted(g: Gen, s: Stmt, ar: Arities, bound: set<string>, lo: nat)
    requires s.While? && Poised(g, ar, bound, lo)
    ensures LowerStmt(g, s).ok <==> AcceptsStmt(ar, bound, s)
    decreases s, 0
  {
    hide Poised, LowerExpr, LowerStmt, StartWhile, BranchIfOpen, Emit;
    WhileEquation(g, s);
    var l, g0 := NextLabel(g), StartWhile(g);
    LoopPoised(g, ar, bound, lo);
    OperandAccepted(g0, s.cond, ar, bound, lo);
    var r := LowerExpr(g0, s.cond);
    if r.g.ok {
      var g2 := SetInsert(Emit(r.g, CondBr(r.operand.value, l + 1, l + 2)), l + 1);
      BodyPoised(g, s.cond, ar, bound, lo);
      StmtAccepted(g2, s.body, ar, bound, lo);
      JoinOk(LowerStmt(g2, s.body), l, l + 2);
    }
  }

  lemma LoopPoised(g: Gen, ar: Arities, bound: set<string>, lo: nat)
    requires Poised(g, ar, bound, lo)
    ensures Poised(StartWhile(g), ar, bound, lo) && Poised(StartDoWhile(g), ar, bound, lo)
  {
    hide Settled, Tidy, Callable, Resolves, StartWhile, StartDoWhile;
    ShapeStartWhile(g, lo);
    ShapeStartDoWhile(g, lo);
    PoisedLater(g, StartWhile(g), ar, bound, bound, lo);
    PoisedLater(g, StartDoWhile(g), ar, bound, bound, lo);
  }

  lemma BodyPoised(g: Gen, c: Expr, ar: Arities, bound: set<string>, lo: nat)
    requires Poised(g, ar, bound, lo) && LowerExpr(StartWhile(g), c).g.ok && LowerExpr(StartWhile(g), c).operand.Some?
    ensures var l, r := NextLabel(g), LowerExpr(StartWhile(g), c);
      Poised(SetInsert(Emit(r.g, CondBr(r.operand.value, l + 1, l + 2)), l + 1), ar, bound, lo)
  {
    hide Settled, Tidy, Callable, Resolves, StartWhile, LowerExpr;
    var l, g0 := NextLabel(g), StartWhile(g);
    var r := LowerExpr(g0, c);
    LoopPoised(g, ar, bound, lo);
    ShapeStartWhile(g, lo);
    ShapeExpr(g0, c, lo);
    ExprNested(g, g0, r, {l + 1, l + 2}, lo);
    var i := CondBr(r.operand.value, l + 1, l + 2);
    UnderwayEmit(g, r.g, i, {l + 1, l + 2}, lo);
    ShapeEnter(g, Emit(r.g, i), l + 1, {l + 1, l + 2}, {l + 2}, lo);
    PoisedLater(g, SetInsert(Emit(r.g, i), l + 1), ar, bound, bound, lo);
  }

  lemma {:induction false} DoAccepted(g: Gen, s: Stmt, ar: Arities, bound: set<string>, lo: nat)
    requires s.DoWhile? && Poised(g, ar, bound, lo)
    ensures LowerStmt(g, s).ok <==> AcceptsStmt(ar, bound, s)
    decreases s, 0
  {
    hide Poised, LowerExpr, LowerStmt, StartDoWhile, Emit;
    DoEquation(g, s);
    var g0 := StartDoWhile(g);
    LoopPoised(g, ar, bound, lo);
    StmtAccepted(g0, s.body, ar, bound, lo);
    var g1 := LowerStmt(g0, s.body);
    if g1.ok {
      StmtPoised(g0, s.body, ar, bound, lo);
      if !Ends(s.body) {
        OperandAccepted(g1, s.cond, ar, BoundAfter(s.body, bound), lo);
        EmitOk(LowerExpr(g1, s.cond), NextLabel(g));
      }
    }
  }

  lemma EmitOk(r: Lowered, l: nat)
    ensures r.operand.Some? ==> Emit(r.g, CondBr(r.operand.value, l, l + 1)).ok == r.g.ok
  {
  }

  // ----- functions and programs -----

  /** The functions visited so far. */
  lemma {:induction false} ProgramCallable(p: Program)
    ensures var g := LowerProgram(p); Callable(g, AritiesOf(p)) && |g.code.fns| == |p|
    decreases p
  {
    hide LowerFunction, Callable;
    if p == [] {
      NothingCallable();
    } else {
      ProgramCallable(p[..|p| - 1]);
      OneMoreCallable(LowerProgram(p[..|p| - 1]), p[|p| - 1], AritiesOf(p[..|p| - 1]));
    }
  }

  lemma NothingCallable()
    ensures Callable(EMPTY_GEN, map[])
  {
  }

  lemma OneMoreCallable(g: Gen, d: FunctionDef, ar: Arities)
    requires Callable(g, ar)
    ensures var h := LowerFunction(g, d);
      Callable(h, ar[d.name := |d.params|]) && |h.code.fns| == |g.code.fns| + 1
    ensures Callable(StartFunction(g, d), ar[d.name := |d.params|])
  {
    hide LowerFunction;
    FunctionAppends(g, d);
    ShapeStartFunction(g, d);
  }

  lemma FunctionAccepted(g: Gen, d: FunctionDef, ar: Arities)
    requires Callable(g, ar)
    ensures LowerFunction(g, d).ok <==> g.ok && AcceptsStmt(ar[d.name := |d.params|], ParamNames(d.params), d.body)
  {
    hide LowerStmt, LowerParams, StartFunction, Callable, Resolves, Settled, Tidy;
    var lo, g0, g1 := NextLabel(g), StartFunction(g, d), BodyStart(g, d);
    ShapeStartFunction(g, d);
    ShapeBody(g, d);
    NothingResolved(g, d);
    ParamsResolve(g0, d.params);
    OneMoreCallable(g, d, ar);
    if g.ok {
      BodyPoisedFor(g, d, ar);
      StmtAccepted(g1, d.body, ar[d.name := |d.params|], ParamNames(d.params), lo);
    }
  }

  lemma BodyPoisedFor(g: Gen, d: FunctionDef, ar: Arities)
    requires Callable(StartFunction(g, d), ar[d.name := |d.params|]) && g.ok
    requires Resolves(BodyStart(g, d).scopes, ParamNames(d.params)) && BodyStart(g, d).ok
    ensures Poised(BodyStart(g, d), ar[d.name := |d.params|], ParamNames(d.params), NextLabel(g))
  {
    hide LowerStmt, LowerParams, Resolves, Settled, Tidy;
    ShapeBody(g, d);
    ShapeStartFunction(g, d);
  }

  /** Code generation reports no error if and only if the program keeps the rule. */
  lemma {:induction false} CodeGenerationSucceedsExactlyWhen(p: Program)
    ensures LowerProgram(p).ok <==> AcceptsProgram(p)
    decreases p
  {
    hide LowerFunction, Callable, AcceptsProgram;
    if p != [] {
      var q := p[..|p| - 1];
      CodeGenerationSucceedsExactlyWhen(q);
      ProgramCallable(q);
      FunctionAccepted(LowerProgram(q), p[|p| - 1], AritiesOf(q));
      AcceptsLast(p);
    } else {
      NothingAccepted();
    }
  }

  lemma NothingAccepted()
    ensures AcceptsProgram([])
  {
  }

  lemma AcceptsLast(p: Program)
    requires p != []
    ensures var q, d := p[..|p| - 1], p[|p| - 1];
      AcceptsProgram(p) <==>
        AcceptsProgram(q) && AcceptsStmt(AritiesOf(q)[d.name := |d.params|], ParamNames(d.params), d.body)
  {
    hide AcceptsStmt, AritiesOf;
    var n := |p| - 1;
    assert p[..n + 1] == p;
    ArityOfLast(p);
    forall i | 0 <= i < n ensures p[..i + 1] == p[..n][..i + 1] && p[i] == p[..n][i] {
    }
  }

  lemma ArityOfLast(p: Program)
    requires p != []
    ensures AritiesOf(p) == AritiesOf(p[..|p| - 1])[p[|p| - 1].name := |p[|p| - 1].params|]
  {
  }
}
