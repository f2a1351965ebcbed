/** Functions that always return, and what becomes of call statements. */
module Programs {
  import opened Wrappers
  import opened Values
  import opened Ast
  import opened Source
  import opened Ir
  import opened Lowering
  import opened Scoping
  import opened Unfolding
  import opened Correctness
  import opened Declarations
  import opened Executions
  import opened Acceptance

  // ----- functions that always return -----

  /** No function of the program can fall off its end. */
  predicate AllReturn(p: Program) {
    forall i :: 0 <= i < |p| ==> !Falls(p[i].body)
  }

  lemma {:induction false} EvalNeverFallsOff(w: World, e: Expr, env: Env, out: seq<Event>, fuel: nat)
    requires AllReturn(w.p)
    ensures var r := Eval(w, e, env, out, fuel); r.Halted? ==> r.why != FellOff
    decreases fuel, 1, e
  {
    match e
    case Unary(_, sub) =>
      EvalNeverFallsOff(w, sub, env, out, fuel);
    case Binary(_, op, l, r) =>
      EvalNeverFallsOff(w, l, env, out, fuel);
      EvalNeverFallsOff(w, r, env, Eval(w, l, env, out, fuel).out, fuel);
    case Call(f, args, _) =>
      var i := FindFunction(w.p, f);
      if i.Some? && |args| == |w.p[i.value].params| {
        ArgsNeverFallOff(w, args, w.p[i.value].params, env, out, fuel);
        var a := EvalArgs(w, args, w.p[i.value].params, env, out, fuel);
        if a.Arguments? {
          CallNeverFallsOff(w, i.value, a.vs, a.out, fuel);
        }
      }
    case _ =>
  }

  lemma {:induction false} ArgsNeverFallOff(w: World, args: seq<Expr>, params: seq<Param>, env: Env, out: seq<Event>, fuel: nat)
    requires AllReturn(w.p) && |args| == |params|
    ensures var r := EvalArgs(w, args, params, env, out, fuel); r.ArgsHalted? ==> r.why != FellOff
    decreases fuel, 1, args
  {
    if args != [] {
      EvalNeverFallsOff(w, args[0], env, out, fuel);
      ArgsNeverFallOff(w, args[1..], params[1..], env, Eval(w, args[0], env, out, fuel).out, fuel);
    }
  }

  lemma {:induction false} CallNeverFallsOff(w: World, i: nat, vs: seq<Val>, out: seq<Event>, fuel: nat)
    requires AllReturn(w.p) && i < |w.p| && |vs| == |w.p[i].params|
    ensures var r := CallFunction(w, i, vs, out, fuel); r.Halted? ==> r.why != FellOff
    decreases fuel, 0
  {
    if fuel > 0 {
      var d := w.p[i];
      NeverNormal(w, d.body, Bind(d.params, vs), d.ty, out, fuel - 1);
      ExecNeverFallsOff(w, d.body, Bind(d.params, vs), d.ty, out, fuel - 1);
    }
  }

  lemma {:induction false} ExecNeverFallsOff(w: World, s: Stmt, env: Env, ret: TType, out: seq<Event>, fuel: nat)
    requires AllReturn(w.p)
    ensures var r := Exec(w, s, env, ret, out, fuel); r.Stopped? ==> r.why != FellOff
    decreases fuel, 2, s
  {
    match s
    case Assign(_, _, e) => EvalNeverFallsOff(w, e, env, out, fuel);
    case Print(e) => EvalNeverFallsOff(w, e, env, out, fuel);
    case Return(e) => EvalNeverFallsOff(w, e, env, out, fuel);
    case CallStmt(e) => EvalNeverFallsOff(w, e, env, out, fuel);
    case Block(ss) => SeqNeverFallsOff(w, ss, env, ret, out, fuel);
    case If(c, thn, els) =>
      EvalNeverFallsOff(w, c, env, out, fuel);
      var out1 := Eval(w, c, env, out, fuel).out;
      ExecNeverFallsOff(w, thn, env, ret, out1, fuel);
      if els.Some? {
        ExecNeverFallsOff(w, els.value, env, ret, out1, fuel);
      }
    case While(c, body) =>
      ExecWhile(w, s, env, ret, out, fuel);
      if fuel > 0 {
        EvalNeverFallsOff(w, c, env, out, fuel);
        var out1 := Eval(w, c, env, out, fuel).out;
        ExecNeverFallsOff(w, body, env, ret, out1, fuel);
        var r := Exec(w, body, env, ret, out1, fuel);
        if r.Normal? {
          ExecNeverFallsOff(w, s, Restrict(r.env, env.Keys), ret, r.out, fuel - 1);
        }
      }
    case DoWhile(body, c) =>
      ExecDoWhile(w, s, env, ret, out, fuel);
      if fuel > 0 {
        ExecNeverFallsOff(w, body, env, ret, out, fuel);
        var r := Exec(w, body, env, ret, out, fuel);
        if r.Normal? {
          EvalNeverFallsOff(w, c, r.env, r.out, fuel);
          ExecNeverFallsOff(w, s, Restrict(r.env, env.Keys), ret, Eval(w, c, r.env, r.out, fuel).out, fuel - 1);
        }
      }
  }

  lemma {:induction false} SeqNeverFallsOff(w: World, ss: seq<Stmt>, env: Env, ret: TType, out: seq<Event>, fuel: nat)
    requires AllReturn(w.p)
    ensures var r := ExecSeq(w, ss, env, ret, out, fuel); r.Stopped? ==> r.why != FellOff
    decreases fuel, 2, ss
  {
    if ss != [] {
      ExecNeverFallsOff(w, ss[0], env, ret, out, fuel);
      var r := Exec(w, ss[0], env, ret, out, fuel);
      if r.Normal? {
        SeqNeverFallsOff(w, ss[1..], r.env, ret, r.out, fuel);
      }
    }
  }

  /** If every function must return, no run of the emitted code reaches an `unreachable`. */
  lemma UnreachableNeverReached(p: Program, ops: FloatOps, i: nat, vs: seq<Val>, n: nat)
    requires CanStart(p, i, vs) && AllReturn(p)
    ensures After(p, ops, i, vs, n).status != ReachedUnreachable
  {
    if !After(p, ops, i, vs, n).status.Running? {
      EveryStopIsExplained(p, ops, i, vs, n);
      CallNeverFallsOff(World(p, ops), i, vs, [], n + 2);
    }
  }

  // ----- call statements -----

  /** The program with its call statements taken out. */
  function Erase(s: Stmt): Stmt
    decreases s
  {
    match s
    case CallStmt(_) => Block([])
    case Block(ss) => Block(EraseSeq(ss))
    case If(c, thn, els) => If(c, Erase(thn), if els.Some? then Some(Erase(els.value)) else None)
    case While(c, body) => While(c, Erase(body))
    case DoWhile(body, c) => DoWhile(Erase(body), c)
    case _ => s
  }

  function EraseSeq(ss: seq<Stmt>): (r: seq<Stmt>)
    ensures |r| == |ss|
    decreases ss
  {
    if ss == [] then [] else [Erase(ss[0])] + EraseSeq(ss[1..])
  }

  function EraseProgram(p: Program): (r: Program)
    ensures |r| == |p|
    ensures forall i :: 0 <= i < |p| ==> r[i] == p[i].(body := Erase(p[i].body))
  {
    seq(|p|, i requires 0 <= i < |p| => p[i].(body := Erase(p[i].body)))
  }

  lemma {:induction false} EraseLowersAlike(g: Gen, s: Stmt)
    ensures LowerStmt(g, Erase(s)) == LowerStmt(g, s)
    decreases s
  {
    hide LowerExpr, StartIf, StartWhile, StartDoWhile, BranchIfOpen, LowerAssign, LowerPrint, LowerReturn;
    match s
    case CallStmt(_) =>
      assert Popped(g.scopes + [map[]]) == g.scopes;
    case Block(ss) => EraseSeqLowersAlike(g.(scopes := g.scopes + [map[]]), ss);
    case If(_, _, _) => EraseIfLowersAlike(g, s);
    case While(c, body) =>
      var l, g1 := NextLabel(g), LowerExpr(StartWhile(g), c);
      if g1.g.ok && g1.operand.Some? {
        EraseLowersAlike(SetInsert(Emit(g1.g, CondBr(g1.operand.value, l + 1, l + 2)), l + 1), body);
      }
    case DoWhile(body, _) => EraseLowersAlike(StartDoWhile(g), body);
    case _ =>
  }

  lemma {:induction false} EraseIfLowersAlike(g: Gen, s: Stmt)
    requires s.If?
    ensures LowerStmt(g, Erase(s)) == LowerStmt(g, s)
    decreases s, 0
  {
    hide LowerExpr, StartIf, BranchIfOpen;
    var g1 := LowerExpr(g, s.cond);
    if g1.g.ok && g1.operand.Some? {
      var g2 := StartIf(g1.g, g1.operand.value);
      EraseLowersAlike(g2, s.thn);
      var g3 := LowerStmt(g2, s.thn);
      var l := NextLabel(g1.g);
      if s.els.Some? {
        EraseLowersAlike(SetInsert(Attach(BranchIfOpen(g3, l + 2), l + 1), l + 1), s.els.value);
      }
    }
  }

  lemma {:induction false} EraseSeqLowersAlike(g: Gen, ss: seq<Stmt>)
    ensures LowerSeq(g, EraseSeq(ss)) == LowerSeq(g, ss)
    decreases ss
  {
    if ss != [] {
      EraseLowersAlike(g, ss[0]);
      EraseSeqLowersAlike(LowerStmt(g, ss[0]), ss[1..]);
      assert EraseSeq(ss)[1..] == EraseSeq(ss[1..]);
    }
  }

  lemma {:induction false} EraseProgramLowersAlike(p: Program)
    ensures LowerProgram(EraseProgram(p)) == LowerProgram(p)
    decreases p
  {
    if p != [] {
      var i := |p| - 1;
      EraseProgramLowersAlike(p[..i]);
      assert EraseProgram(p)[..i] == EraseProgram(p[..i]);
      EraseLowersAlike(LowerParams(StartFunction(LowerProgram(p[..i]), p[i]), p[i].params), p[i].body);
    }
  }

  /** Erasing changes nothing for the declaration rule. */
  lemma {:induction false} EraseAssured(s: Stmt, bound: set<string>, sure: set<string>)
    ensures NoCallStmts(Erase(s)) && (Falls(Erase(s)) <==> Falls(s))
    ensures BoundAfter(Erase(s), bound) == BoundAfter(s, bound)
    ensures SureAfter(Erase(s), bound, sure) == SureAfter(s, bound, sure)
    ensures Assured(Erase(s), bound, sure) <==> Assured(s, bound, sure)
    decreases s
  {
    match s
    case Block(ss) => EraseSeqAssured(ss, bound, sure);
    case If(_, thn, els) =>
      EraseAssured(thn, bound, sure);
      if els.Some? {
        EraseAssured(els.value, BoundAfter(thn, bound), sure);
      }
    case While(_, body) => EraseAssured(body, bound, sure);
    case DoWhile(body, _) => EraseAssured(body, bound, sure);
    case _ =>
  }

  lemma {:induction false} EraseSeqAssured(ss: seq<Stmt>, bound: set<string>, sure: set<string>)
    ensures forall i :: 0 <= i < |ss| ==> NoCallStmts(EraseSeq(ss)[i])
    ensures FallsAll(EraseSeq(ss)) <==> FallsAll(ss)
    ensures AssuredAll(EraseSeq(ss), bound, sure) <==> AssuredAll(ss, bound, sure)
    decreases ss
  {
    if ss != [] {
      EraseAssured(ss[0], bound, sure);
      EraseSeqAssured(ss[1..], BoundAfter(ss[0], bound), SureAfter(ss[0], bound, sure));
      assert EraseSeq(ss)[1..] == EraseSeq(ss[1..]);
    }
  }

  /** The emitted code of any assured program, call statements or not, is that of the program
      without them, and means what that program means. */
  lemma CallStatementsAreDropped(p: Program, ops: FloatOps, i: nat, vs: seq<Val>, fuel: nat) returns (n: nat)
    requires AcceptsProgram(p) && DistinctNames(p) && i < |p| && |vs| == |p[i].params|
    requires forall j :: 0 <= j < |p| ==> AssuredFunction(p[j])
    ensures i < |LowerProgram(p).code.fns|
    ensures var r, t := Meaning(EraseProgram(p), ops, i, vs, fuel), After(p, ops, i, vs, n);
      t.status == StatusOf(r) && t.out == r.out
  {
    hide AcceptsProgram;
    var q := EraseProgram(p);
    EraseProgramLowersAlike(p);
    CodeGenerationSucceedsExactlyWhen(p);
    CodeGenerationSucceedsExactlyWhen(q);
    forall j | 0 <= j < |q| ensures AssuredFunction(q[j]) && NoCallStmts(q[j].body) {
      EraseAssured(p[j].body, ParamNames(p[j].params), ParamNames(p[j].params));
    }
    AllFunctionsKnown(q, i);
    n := MachineFollowsInterpreter(q, ops, i, vs, fuel);
  }
}
