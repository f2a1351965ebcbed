/** Well-typed programs never go wrong: the interpreter meets no ill-typed operand, so the
    machine never meets a value of the wrong type. */
module Soundness {
  import opened Wrappers
  import opened Values
  import opened Ast
  import opened Source
  import opened Ir
  import opened Lowering
  import opened Scoping
  import opened Unfolding
  import opened Typing
  import opened Correctness
  import opened Executions
  import opened Declarations

  ghost predicate SoundFunction(p: Program, d: FunctionDef) {
    Typable(p, d) && UnmixedStmt(d.body) && NoCallStmts(d.body)
  }

  ghost predicate SoundWorld(w: World) {
    forall i :: 0 <= i < |w.p| ==> SoundFunction(w.p, w.p[i])
  }

  predicate EnvTyped(env: Env, names: Names) {
    forall x :: x in env ==> x in names && HasType(env[x], names[x])
  }

  predicate ArgsTyped(vs: seq<Val>, ps: seq<Param>) {
    |vs| == |ps| && forall i :: 0 <= i < |vs| ==> HasType(vs[i], ps[i].ty)
  }

  ghost predicate ExprSound(r: ExprResult, t: TType) {
    match r
    case Value(v, _) => HasType(v, t)
    case Halted(why, _) => why != IllTyped
  }

  ghost predicate StmtSound(r: StmtResult, names: Names, ret: TType) {
    match r
    case Normal(env, _) => EnvTyped(env, names)
    case Returned(v, _) => HasType(v, ret)
    case Stopped(why, _) => why != IllTyped
  }

  lemma StrictSound(ops: FloatOps, op: BinaryOp, l: TType, r: TType, a: Val, b: Val)
    requires (op.IsArithmetic() || op.IsRelation()) && l != UNDEFINED && r != UNDEFINED
    requires HasType(a, l) && HasType(b, r)
    requires !op.Eq? && !op.Ne? ==> IsNumber(l) && IsNumber(r)
    requires op.Eq? || op.Ne? ==> Comparable(l, r)
    ensures var isFloat := l == FLOAT || r == FLOAT;
      ExprSound(Conclude(Strict(ops, isFloat, op, a, b), []),
                if op.IsRelation() then BOOL else if isFloat then FLOAT else INTEGER)
  {
  }

  lemma {:induction false} EvalSound(w: World, names: Names, e: Expr, env: Env, out: seq<Event>, fuel: nat)
    requires SoundWorld(w) && TypedExpr(w.p, names, e) && Unmixed(e) && EnvTyped(env, names)
    ensures ExprSound(Eval(w, e, env, out, fuel), e.Type())
    decreases fuel, 1, e
  {
    match e
    case Var(_, _) =>
    case BoolLit(_) =>
    case IntLit(_) =>
    case FloatLit(_) =>
    case Unary(_, sub) =>
      EvalSound(w, names, sub, env, out, fuel);
      EvalUnary(w, e, env, out, fuel);
    case Binary(_, op, l, r) =>
      EvalSound(w, names, l, env, out, fuel);
      var a := Eval(w, l, env, out, fuel);
      EvalSound(w, names, r, env, a.out, fuel);
      TypedHasType(w.p, names, l);
      TypedHasType(w.p, names, r);
      if op.And? || op.Or? {
        EvalLogical(w, e, env, out, fuel);
      } else {
        EvalStrict(w, e, env, out, fuel);
        var b := Eval(w, r, env, a.out, fuel);
        if a.Value? && b.Value? {
          StrictSound(w.ops, op, l.Type(), r.Type(), a.v, b.v);
        }
      }
    case Call(_, _, _) => CallSound(w, names, e, env, out, fuel);
  }

  lemma {:induction false} CallSound(w: World, names: Names, e: Expr, env: Env, out: seq<Event>, fuel: nat)
    requires SoundWorld(w) && TypedExpr(w.p, names, e) && Unmixed(e) && EnvTyped(env, names) && e.Call?
    ensures ExprSound(Eval(w, e, env, out, fuel), e.Type())
    decreases fuel, 1, e, 0
  {
    hide SoundWorld, SoundFunction, EnvTyped;
    var i := FindFunction(w.p, e.callee).value;
    if |e.args| == |w.p[i].params| {
      EvalCall(w, e, env, out, fuel, i);
      ArgumentsSound(w, names, e.args, w.p[i].params, env, out, fuel);
      var a := EvalArgs(w, e.args, w.p[i].params, env, out, fuel);
      if a.Arguments? {
        FunctionSound(w, i, a.vs, a.out, fuel);
      }
    }
  }

  lemma {:induction false} ArgumentsSound(w: World, names: Names, args: seq<Expr>, params: seq<Param>, env: Env, out: seq<Event>, fuel: nat)
    requires SoundWorld(w) && EnvTyped(env, names) && UnmixedAll(args) && |args| == |params|
    requires forall i :: 0 <= i < |args| ==> TypedExpr(w.p, names, args[i])
    ensures var r := EvalArgs(w, args, params, env, out, fuel);
      if r.Arguments? then ArgsTyped(r.vs, params) else r.why != IllTyped
    decreases fuel, 1, args
  {
    hide SoundWorld, EnvTyped;
    if args != [] {
      EvalArgsCons(w, args, params, env, out, fuel);
      EvalSound(w, names, args[0], env, out, fuel);
      var a := Eval(w, args[0], env, out, fuel);
      if a.Value? {
        ArgumentsSound(w, names, args[1..], params[1..], env, a.out, fuel);
        var r := EvalArgs(w, args[1..], params[1..], env, a.out, fuel);
        if r.Arguments? {
          ArgsConsTyped(Convert(w.ops, a.v, params[0].ty), r.vs, params);
        }
      }
    }
  }

  lemma ArgsConsTyped(v: Val, vs: seq<Val>, params: seq<Param>)
    requires params != [] && ArgsTyped(vs, params[1..]) && HasType(v, params[0].ty)
    ensures ArgsTyped([v] + vs, params)
  {
    forall i | 0 <= i < |params| ensures HasType(([v] + vs)[i], params[i].ty) {
      if i > 0 {
        assert params[1..][i - 1] == params[i];
      }
    }
  }

  lemma {:induction false} BindTyped(ps: seq<Param>, vs: seq<Val>)
    requires ArgsTyped(vs, ps)
    ensures EnvTyped(Bind(ps, vs), LastTypes(ps))
    decreases ps
  {
    if ps != [] {
      BindTyped(ps[..|ps| - 1], vs[..|vs| - 1]);
    }
  }

  /** A call with arguments of the declared types yields a value of the declared type, or halts
      for another reason than a type error. */
  lemma {:induction false} FunctionSound(w: World, i: nat, vs: seq<Val>, out: seq<Event>, fuel: nat)
    requires SoundWorld(w) && i < |w.p| && ArgsTyped(vs, w.p[i].params)
    ensures ExprSound(CallFunction(w, i, vs, out, fuel), w.p[i].ty)
    decreases fuel, 0
  {
    CallBody(w, i, vs, out, fuel);
    if fuel > 0 {
      var d := w.p[i];
      assert SoundFunction(w.p, d);
      var names :| TypedBody(w.p, names, d);
      BindTyped(d.params, vs);
      ExecSound(w, names, d.body, Bind(d.params, vs), d.ty, out, fuel - 1);
    }
  }

  /** A statement that can be executed: typed, and free of mixed comparisons and call statements. */
  ghost predicate Executable(p: Program, names: Names, s: Stmt) {
    TypedStmt(p, names, s) && UnmixedStmt(s) && NoCallStmts(s)
  }

  lemma {:induction false} ExecSound(w: World, names: Names, s: Stmt, env: Env, ret: TType, out: seq<Event>, fuel: nat)
    requires SoundWorld(w) && Executable(w.p, names, s) && EnvTyped(env, names)
    ensures StmtSound(Exec(w, s, env, ret, out, fuel), names, ret)
    decreases fuel, 2, s
  {
    match s
    case Assign(x, t, e) =>
      ExecAssign(w, s, env, ret, out, fuel);
      EvalSound(w, names, e, env, out, fuel);
    case Print(e) =>
      ExecPrint(w, s, env, ret, out, fuel);
      TypedHasType(w.p, names, e);
      EvalSound(w, names, e, env, out, fuel);
    case Return(e) =>
      ExecReturn(w, s, env, ret, out, fuel);
      TypedHasType(w.p, names, e);
      EvalSound(w, names, e, env, out, fuel);
      var r := Eval(w, e, env, out, fuel);
      if r.Value? {
        assert HasType(Convert(w.ops, r.v, ret), ret);
      }
    case CallStmt(_) =>
    case Block(ss) =>
      ExecBlock(w, s, env, ret, out, fuel);
      SeqSound(w, names, ss, env, ret, out, fuel);
    case If(c, thn, els) =>
      ExecIf(w, s, env, ret, out, fuel);
      EvalSound(w, names, c, env, out, fuel);
      var out1 := Eval(w, c, env, out, fuel).out;
      ExecSound(w, names, thn, env, ret, out1, fuel);
      if els.Some? {
        ExecSound(w, names, els.value, env, ret, out1, fuel);
      }
    case While(_, _) => WhileSound(w, names, s, env, ret, out, fuel);
    case DoWhile(_, _) => DoWhileSound(w, names, s, env, ret, out, fuel);
  }

  lemma {:induction false} WhileSound(w: World, names: Names, s: Stmt, env: Env, ret: TType, out: seq<Event>, fuel: nat)
    requires SoundWorld(w) && Executable(w.p, names, s) && EnvTyped(env, names) && s.While?
    ensures StmtSound(Exec(w, s, env, ret, out, fuel), names, ret)
    decreases fuel, 2, s, 0
  {
    hide SoundWorld, EnvTyped;
    ExecWhile(w, s, env, ret, out, fuel);
    if fuel > 0 {
      EvalSound(w, names, s.cond, env, out, fuel);
      var c := Eval(w, s.cond, env, out, fuel);
      if c.Value? {
        ExecSound(w, names, s.body, env, ret, c.out, fuel);
        var r := Exec(w, s.body, env, ret, c.out, fuel);
        if r.Normal? {
          RestrictedTyped(r.env, env.Keys, names);
          ExecSound(w, names, s, Restrict(r.env, env.Keys), ret, r.out, fuel - 1);
        }
      }
    }
  }

  lemma {:induction false} DoWhileSound(w: World, names: Names, s: Stmt, env: Env, ret: TType, out: seq<Event>, fuel: nat)
    requires SoundWorld(w) && Executable(w.p, names, s) && EnvTyped(env, names) && s.DoWhile?
    ensures StmtSound(Exec(w, s, env, ret, out, fuel), names, ret)
    decreases fuel, 2, s, 0
  {
    hide SoundWorld, EnvTyped;
    ExecDoWhile(w, s, env, ret, out, fuel);
    if fuel > 0 {
      ExecSound(w, names, s.body, env, ret, out, fuel);
      var r := Exec(w, s.body, env, ret, out, fuel);
      if r.Normal? {
        EndsNeverNormal(w, s.body, env, ret, out, fuel);
        EvalSound(w, names, s.cond, r.env, r.out, fuel);
        RestrictedTyped(r.env, env.Keys, names);
        ExecSound(w, names, s, Restrict(r.env, env.Keys), ret, Eval(w, s.cond, r.env, r.out, fuel).out, fuel - 1);
      }
    }
  }

  lemma RestrictedTyped(env: Env, xs: set<string>, names: Names)
    requires EnvTyped(env, names)
    ensures EnvTyped(Restrict(env, xs), names)
  {
  }

  lemma EndsNeverNormal(w: World, s: Stmt, env: Env, ret: TType, out: seq<Event>, fuel: nat)
    ensures Ends(s) ==> !Exec(w, s, env, ret, out, fuel).Normal?
  {
    if Ends(s) {
      EndsNeverFalls(s);
      NeverNormal(w, s, env, ret, out, fuel);
    }
  }

  lemma {:induction false} SeqSound(w: World, names: Names, ss: seq<Stmt>, env: Env, ret: TType, out: seq<Event>, fuel: nat)
    requires SoundWorld(w) && EnvTyped(env, names) && UnmixedSeq(ss)
    requires forall i :: 0 <= i < |ss| ==> TypedStmt(w.p, names, ss[i]) && NoCallStmts(ss[i])
    ensures StmtSound(ExecSeq(w, ss, env, ret, out, fuel), names, ret)
    decreases fuel, 2, ss
  {
    hide SoundWorld, EnvTyped;
    if ss != [] {
      ExecSeqCons(w, ss, env, ret, out, fuel);
      ExecSound(w, names, ss[0], env, ret, out, fuel);
      EndsNeverNormal(w, ss[0], env, ret, out, fuel);
      var r := Exec(w, ss[0], env, ret, out, fuel);
      if r.Normal? {
        SeqSound(w, names, ss[1..], r.env, ret, r.out, fuel);
      }
    }
  }

  /** The emitted code of a well-typed program, called with arguments of the declared types, can
      only ever fault on a division by zero. */
  lemma WellTypedCodeFaultsOnlyOnDivision(p: Program, ops: FloatOps, i: nat, vs: seq<Val>, n: nat)
    requires CanStart(p, i, vs) && TypedProgram(p) && UnmixedProgram(p) && ArgsTyped(vs, p[i].params)
    ensures var t := After(p, ops, i, vs, n);
      && (t.status.Faulted? ==> t.status.f == DivisionByZero)
      && (t.status.Finished? ==> HasType(t.status.v, p[i].ty))
  {
    hide After, Typable, UnmixedStmt, LowerProgram;
    if !After(p, ops, i, vs, n).status.Running? {
      TypedIsSound(p, ops);
      hide Compilable, TypedProgram, UnmixedProgram, SoundWorld;
      EveryStopIsExplained(p, ops, i, vs, n);
      FunctionSound(World(p, ops), i, vs, [], n + 2);
    }
  }

  lemma TypedIsSound(p: Program, ops: FloatOps)
    requires Compilable(p) && TypedProgram(p) && UnmixedProgram(p)
    ensures SoundWorld(World(p, ops))
  {
    hide LowerProgram, Typable, UnmixedStmt, WellScopedFunction;
  }

  /** A function of a well-typed program that code generation accepts: the interpreter never meets
      an ill-typed operation or a name that is not bound, and returns a value of the declared type. */
  lemma ProgramSound(p: Program, ops: FloatOps, i: nat, vs: seq<Val>, fuel: nat)
    requires CanStart(p, i, vs) && TypedProgram(p) && UnmixedProgram(p) && ArgsTyped(vs, p[i].params)
    ensures var r := Meaning(p, ops, i, vs, fuel);
      && (r.Halted? ==> r.why.Timeout? || r.why.FellOff? || r.why.DivByZero?)
      && (r.Value? ==> HasType(r.v, p[i].ty))
  {
    hide LowerProgram, TypedProgram, UnmixedProgram;
    var _ := MachineFollowsInterpreter(p, ops, i, vs, fuel);
    TypedIsSound(p, ops);
    FunctionSound(World(p, ops), i, vs, [], fuel);
  }
}
