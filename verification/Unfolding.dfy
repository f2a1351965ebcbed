/** The interpreter's equations, one construct at a time.  The simulation reasons with these
    instead of the definitions. */
module Unfolding {
  import opened Wrappers
  import opened Values
  import opened Ast
  import opened Source

  lemma EvalUnary(w: World, e: Expr, env: Env, out: seq<Event>, fuel: nat)
    requires e.Unary?
    ensures var r := Eval(w, e.sub, env, out, fuel);
      Eval(w, e, env, out, fuel) ==
        if r.Halted? then r else Conclude(Monadic(w.ops, e.uop, e.sub.Type(), r.v), r.out)
  {
  }

  lemma EvalStrict(w: World, e: Expr, env: Env, out: seq<Event>, fuel: nat)
    requires e.Binary? && !e.op.And? && !e.op.Or?
    ensures var l := Eval(w, e.lhs, env, out, fuel);
      && (l.Halted? ==> Eval(w, e, env, out, fuel) == l)
      && (l.Value? ==>
            var r := Eval(w, e.rhs, env, l.out, fuel);
            Eval(w, e, env, out, fuel) ==
              if r.Halted? then r else Conclude(Strict(w.ops, IsFloatOp(e.lhs, e.rhs), e.op, l.v, r.v), r.out))
  {
  }

  lemma EvalLogical(w: World, e: Expr, env: Env, out: seq<Event>, fuel: nat)
    requires e.Binary? && (e.op.And? || e.op.Or?)
    ensures var l := Eval(w, e.lhs, env, out, fuel);
      && (l.Halted? ==> Eval(w, e, env, out, fuel) == l)
      && (l.Value? && !l.v.BoolV? ==> Eval(w, e, env, out, fuel) == Halted(IllTyped, l.out))
      && (l.Value? && l.v.BoolV? && l.v.b == e.op.Or? ==> Eval(w, e, env, out, fuel) == l)
      && (l.Value? && l.v.BoolV? && l.v.b != e.op.Or? ==>
            var r := Eval(w, e.rhs, env, l.out, fuel);
            Eval(w, e, env, out, fuel) ==
              if r.Halted? || r.v.BoolV? then r else Halted(IllTyped, r.out))
  {
  }

  lemma EvalCall(w: World, e: Expr, env: Env, out: seq<Event>, fuel: nat, i: nat)
    requires e.Call? && FindFunction(w.p, e.callee) == Some(i) && |e.args| == |w.p[i].params|
    ensures var a := EvalArgs(w, e.args, w.p[i].params, env, out, fuel);
      && (a.ArgsHalted? ==> Eval(w, e, env, out, fuel) == Halted(a.why, a.out))
      && (a.Arguments? ==> Eval(w, e, env, out, fuel) == CallFunction(w, i, a.vs, a.out, fuel))
  {
  }

  lemma EvalArgsCons(w: World, args: seq<Expr>, params: seq<Param>, env: Env, out: seq<Event>, fuel: nat)
    requires args != [] && |args| == |params|
    ensures var a := Eval(w, args[0], env, out, fuel);
      && (a.Halted? ==> EvalArgs(w, args, params, env, out, fuel) == ArgsHalted(a.why, a.out))
      && (a.Value? ==>
            var r := EvalArgs(w, args[1..], params[1..], env, a.out, fuel);
            EvalArgs(w, args, params, env, out, fuel) ==
              if r.ArgsHalted? then r else Arguments([Convert(w.ops, a.v, params[0].ty)] + r.vs, r.out))
  {
  }

  /** What a call yields when its body ended like this. */
  function AsCall(r: StmtResult): ExprResult {
    match r
    case Normal(_, out) => Halted(FellOff, out)
    case Returned(v, out) => Value(v, out)
    case Stopped(why, out) => Halted(why, out)
  }

  lemma CallBody(w: World, i: nat, vs: seq<Val>, out: seq<Event>, fuel: nat)
    requires i < |w.p| && |vs| == |w.p[i].params|
    ensures fuel == 0 ==> CallFunction(w, i, vs, out, fuel) == Halted(Timeout, out)
    ensures fuel > 0 ==>
      var r := Exec(w, w.p[i].body, Bind(w.p[i].params, vs), w.p[i].ty, out, fuel - 1);
      CallFunction(w, i, vs, out, fuel) == AsCall(r)
  {
  }

  lemma ExecAssign(w: World, s: Stmt, env: Env, ret: TType, out: seq<Event>, fuel: nat)
    requires s.Assign?
    ensures var r := Eval(w, s.rhs, env, out, fuel);
      Exec(w, s, env, ret, out, fuel) ==
        if r.Halted? then Stopped(r.why, r.out)
        else Normal(env[s.name := if s.varTy != s.rhs.Type() then Convert(w.ops, r.v, s.varTy) else r.v], r.out)
  {
  }

  lemma ExecPrint(w: World, s: Stmt, env: Env, ret: TType, out: seq<Event>, fuel: nat)
    requires s.Print?
    ensures var r := Eval(w, s.e, env, out, fuel);
      Exec(w, s, env, ret, out, fuel) ==
        if r.Halted? then Stopped(r.why, r.out)
        else
          var e := Shown(w.ops, s.e.Type(), r.v);
          if e.None? then Stopped(IllTyped, r.out) else Normal(env, r.out + [e.value])
  {
  }

  lemma ExecReturn(w: World, s: Stmt, env: Env, ret: TType, out: seq<Event>, fuel: nat)
    requires s.Return?
    ensures var r := Eval(w, s.e, env, out, fuel);
      Exec(w, s, env, ret, out, fuel) ==
        if r.Halted? then Stopped(r.why, r.out) else StmtResult.Returned(Convert(w.ops, r.v, ret), r.out)
  {
  }

  lemma ExecBlock(w: World, s: Stmt, env: Env, ret: TType, out: seq<Event>, fuel: nat)
    requires s.Block?
    ensures var r := ExecSeq(w, s.stmts, env, ret, out, fuel);
      Exec(w, s, env, ret, out, fuel) == if r.Normal? then Normal(Restrict(r.env, env.Keys), r.out) else r
  {
  }

  lemma ExecSeqCons(w: World, ss: seq<Stmt>, env: Env, ret: TType, out: seq<Event>, fuel: nat)
    requires ss != []
    ensures var r := Exec(w, ss[0], env, ret, out, fuel);
      ExecSeq(w, ss, env, ret, out, fuel) ==
        if r.Normal? then ExecSeq(w, ss[1..], r.env, ret, r.out, fuel) else r
  {
  }

  lemma ExecIf(w: World, s: Stmt, env: Env, ret: TType, out: seq<Event>, fuel: nat)
    requires s.If?
    ensures var r := Eval(w, s.cond, env, out, fuel);
      Exec(w, s, env, ret, out, fuel) ==
        if r.Halted? then Stopped(r.why, r.out)
        else if !r.v.BoolV? then Stopped(IllTyped, r.out)
        else if r.v.b then Exec(w, s.thn, env, ret, r.out, fuel)
        else if s.els.Some? then Exec(w, s.els.value, env, ret, r.out, fuel)
        else Normal(env, r.out)
  {
  }

  lemma ExecWhile(w: World, s: Stmt, env: Env, ret: TType, out: seq<Event>, fuel: nat)
    requires s.While?
    ensures fuel == 0 ==> Exec(w, s, env, ret, out, fuel) == Stopped(Timeout, out)
    ensures fuel > 0 ==>
      var r := Eval(w, s.cond, env, out, fuel);
      && (r.Halted? ==> Exec(w, s, env, ret, out, fuel) == Stopped(r.why, r.out))
      && (r.Value? && !r.v.BoolV? ==> Exec(w, s, env, ret, out, fuel) == Stopped(IllTyped, r.out))
      && (r.Value? && r.v.BoolV? && !r.v.b ==> Exec(w, s, env, ret, out, fuel) == Normal(env, r.out))
      && (r.Value? && r.v.BoolV? && r.v.b ==>
            var b := Exec(w, s.body, env, ret, r.out, fuel);
            Exec(w, s, env, ret, out, fuel) ==
              if b.Normal? then Exec(w, s, Restrict(b.env, env.Keys), ret, b.out, fuel - 1) else b)
  {
  }

  lemma ExecDoWhile(w: World, s: Stmt, env: Env, ret: TType, out: seq<Event>, fuel: nat)
    requires s.DoWhile?
    ensures fuel == 0 ==> Exec(w, s, env, ret, out, fuel) == Stopped(Timeout, out)
    ensures fuel > 0 ==>
      var b := Exec(w, s.body, env, ret, out, fuel);
      && (!b.Normal? ==> Exec(w, s, env, ret, out, fuel) == b)
      && (b.Normal? ==>
            var r := Eval(w, s.cond, b.env, b.out, fuel);
            && (r.Halted? ==> Exec(w, s, env, ret, out, fuel) == Stopped(r.why, r.out))
            && (r.Value? && !r.v.BoolV? ==> Exec(w, s, env, ret, out, fuel) == Stopped(IllTyped, r.out))
            && (r.Value? && r.v.BoolV? && !r.v.b ==> Exec(w, s, env, ret, out, fuel) == Normal(b.env, r.out))
            && (r.Value? && r.v.BoolV? && r.v.b ==>
                  Exec(w, s, env, ret, out, fuel) == Exec(w, s, Restrict(b.env, env.Keys), ret, r.out, fuel - 1)))
  {
  }
}
