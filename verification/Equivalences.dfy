/** Laws of the language: what a program means does not depend on the fuel once there is enough of it,
    and statements that a reader takes to be the same are the same. */
module Equivalences {
  import opened Wrappers
  import opened Values
  import opened Ast
  import opened Source
  import opened Unfolding
  import opened Executions

  // ----- enough fuel -----

  predicate OutOfFuel(r: ExprResult) { r.Halted? && r.why.Timeout? }

  predicate StmtOutOfFuel(r: StmtResult) { r.Stopped? && r.why.Timeout? }

  predicate ArgsOutOfFuel(r: ArgsResult) { r.ArgsHalted? && r.why.Timeout? }

  lemma {:induction false} EvalEnough(w: World, e: Expr, env: Env, out: seq<Event>, f: nat, g: nat)
    requires f <= g && !OutOfFuel(Eval(w, e, env, out, f))
    ensures Eval(w, e, env, out, g) == Eval(w, e, env, out, f)
    decreases f, 1, e
  {
    match e
    case Var(_, _) =>
    case BoolLit(_) =>
    case IntLit(_) =>
    case FloatLit(_) =>
    case Unary(_, sub) =>
      EvalUnary(w, e, env, out, f);
      EvalUnary(w, e, env, out, g);
      hide Eval;
      EvalEnough(w, sub, env, out, f, g);
    case Binary(_, _, _, _) => BinaryEnough(w, e, env, out, f, g);
    case Call(_, _, _) => CallEnough(w, e, env, out, f, g);
  }

  lemma {:induction false} BinaryEnough(w: World, e: Expr, env: Env, out: seq<Event>, f: nat, g: nat)
    requires e.Binary? && f <= g && !OutOfFuel(Eval(w, e, env, out, f))
    ensures Eval(w, e, env, out, g) == Eval(w, e, env, out, f)
    decreases f, 1, e, 0
  {
    if e.op.And? || e.op.Or? {
      EvalLogical(w, e, env, out, f);
      EvalLogical(w, e, env, out, g);
    } else {
      EvalStrict(w, e, env, out, f);
      EvalStrict(w, e, env, out, g);
    }
    hide Eval, Strict;
    EvalEnough(w, e.lhs, env, out, f, g);
    var l := Eval(w, e.lhs, env, out, f);
    if l.Value? && !OutOfFuel(Eval(w, e.rhs, env, l.out, f)) {
      EvalEnough(w, e.rhs, env, l.out, f, g);
    }
  }

  lemma {:induction false} CallEnough(w: World, e: Expr, env: Env, out: seq<Event>, f: nat, g: nat)
    requires e.Call? && f <= g && !OutOfFuel(Eval(w, e, env, out, f))
    ensures Eval(w, e, env, out, g) == Eval(w, e, env, out, f)
    decreases f, 1, e, 0
  {
    var i := FindFunction(w.p, e.callee);
    if i.Some? && |e.args| == |w.p[i.value].params| {
      EvalCall(w, e, env, out, f, i.value);
      EvalCall(w, e, env, out, g, i.value);
      hide Eval;
      var ps := w.p[i.value].params;
      ArgsEnough(w, e.args, ps, env, out, f, g);
      var a := EvalArgs(w, e.args, ps, env, out, f);
      if a.Arguments? {
        BodyEnough(w, i.value, a.vs, a.out, f, g);
      }
    }
  }

  lemma {:induction false} ArgsEnough(w: World, args: seq<Expr>, params: seq<Param>, env: Env, out: seq<Event>, f: nat, g: nat)
    requires |args| == |params| && f <= g && !ArgsOutOfFuel(EvalArgs(w, args, params, env, out, f))
    ensures EvalArgs(w, args, params, env, out, g) == EvalArgs(w, args, params, env, out, f)
    decreases f, 1, args
  {
    if args != [] {
      EvalArgsCons(w, args, params, env, out, f);
      EvalArgsCons(w, args, params, env, out, g);
      hide Eval, EvalArgs;
      EvalEnough(w, args[0], env, out, f, g);
      var a := Eval(w, args[0], env, out, f);
      if a.Value? {
        ArgsEnough(w, args[1..], params[1..], env, a.out, f, g);
      }
    }
  }

  lemma {:induction false} BodyEnough(w: World, i: nat, vs: seq<Val>, out: seq<Event>, f: nat, g: nat)
    requires i < |w.p| && |vs| == |w.p[i].params| && f <= g && !OutOfFuel(CallFunction(w, i, vs, out, f))
    ensures CallFunction(w, i, vs, out, g) == CallFunction(w, i, vs, out, f)
    decreases f, 0
  {
    CallBody(w, i, vs, out, f);
    CallBody(w, i, vs, out, g);
    hide Exec, CallFunction;
    if f > 0 {
      ExecEnough(w, w.p[i].body, Bind(w.p[i].params, vs), w.p[i].ty, out, f - 1, g - 1);
    }
  }

  /** More fuel changes nothing that has come to an end: neither values nor output nor how it ended. */
  lemma {:induction false} ExecEnough(w: World, s: Stmt, env: Env, ret: TType, out: seq<Event>, f: nat, g: nat)
    requires f <= g && !StmtOutOfFuel(Exec(w, s, env, ret, out, f))
    ensures Exec(w, s, env, ret, out, g) == Exec(w, s, env, ret, out, f)
    decreases f, 2, s
  {
    match s
    case Assign(_, _, e) =>
      hide Eval;
      EvalEnough(w, e, env, out, f, g);
    case Print(e) =>
      hide Eval;
      EvalEnough(w, e, env, out, f, g);
    case Return(e) =>
      hide Eval;
      EvalEnough(w, e, env, out, f, g);
    case CallStmt(e) =>
      hide Eval;
      EvalEnough(w, e, env, out, f, g);
    case Block(ss) =>
      ExecBlock(w, s, env, ret, out, f);
      ExecBlock(w, s, env, ret, out, g);
      hide Exec;
      SeqEnough(w, ss, env, ret, out, f, g);
    case If(_, _, _) => IfEnough(w, s, env, ret, out, f, g);
    case While(_, _) => WhileEnough(w, s, env, ret, out, f, g);
    case DoWhile(_, _) => DoEnough(w, s, env, ret, out, f, g);
  }

  lemma {:induction false} SeqEnough(w: World, ss: seq<Stmt>, env: Env, ret: TType, out: seq<Event>, f: nat, g: nat)
    requires f <= g && !StmtOutOfFuel(ExecSeq(w, ss, env, ret, out, f))
    ensures ExecSeq(w, ss, env, ret, out, g) == ExecSeq(w, ss, env, ret, out, f)
    decreases f, 2, ss
  {
    if ss != [] {
      ExecSeqCons(w, ss, env, ret, out, f);
      ExecSeqCons(w, ss, env, ret, out, g);
      hide Exec, ExecSeq;
      ExecEnough(w, ss[0], env, ret, out, f, g);
      var r := Exec(w, ss[0], env, ret, out, f);
      if r.Normal? {
        SeqEnough(w, ss[1..], r.env, ret, r.out, f, g);
      }
    }
  }

  lemma {:induction false} IfEnough(w: World, s: Stmt, env: Env, ret: TType, out: seq<Event>, f: nat, g: nat)
    requires s.If? && f <= g && !StmtOutOfFuel(Exec(w, s, env, ret, out, f))
    ensures Exec(w, s, env, ret, out, g) == Exec(w, s, env, ret, out, f)
    decreases f, 2, s, 0
  {
    ExecIf(w, s, env, ret, out, f);
    ExecIf(w, s, env, ret, out, g);
    hide Eval, Exec;
    EvalEnough(w, s.cond, env, out, f, g);
    var r := Eval(w, s.cond, env, out, f);
    if r.Value? && r.v.BoolV? {
      if r.v.b {
        ExecEnough(w, s.thn, env, ret, r.out, f, g);
      } else if s.els.Some? {
        ExecEnough(w, s.els.value, env, ret, r.out, f, g);
      }
    }
  }

  lemma {:induction false} WhileEnough(w: World, s: Stmt, env: Env, ret: TType, out: seq<Event>, f: nat, g: nat)
    requires s.While? && f <= g && !StmtOutOfFuel(Exec(w, s, env, ret, out, f))
    ensures Exec(w, s, env, ret, out, g) == Exec(w, s, env, ret, out, f)
    decreases f, 2, s, 0
  {
    ExecWhile(w, s, env, ret, out, f);
    ExecWhile(w, s, env, ret, out, g);
    hide Eval, Exec;
    EvalEnough(w, s.cond, env, out, f, g);
    var r := Eval(w, s.cond, env, out, f);
    if r.Value? && r.v.BoolV? && r.v.b {
      ExecEnough(w, s.body, env, ret, r.out, f, g);
      var b := Exec(w, s.body, env, ret, r.out, f);
      if b.Normal? {
        ExecEnough(w, s, Restrict(b.env, env.Keys), ret, b.out, f - 1, g - 1);
      }
    }
  }

  lemma {:induction false} DoEnough(w: World, s: Stmt, env: Env, ret: TType, out: seq<Event>, f: nat, g: nat)
    requires s.DoWhile? && f <= g && !StmtOutOfFuel(Exec(w, s, env, ret, out, f))
    ensures Exec(w, s, env, ret, out, g) == Exec(w, s, env, ret, out, f)
    decreases f, 2, s, 0
  {
    ExecDoWhile(w, s, env, ret, out, f);
    ExecDoWhile(w, s, env, ret, out, g);
    hide Eval, Exec;
    ExecEnough(w, s.body, env, ret, out, f, g);
    var b := Exec(w, s.body, env, ret, out, f);
    if b.Normal? {
      EvalEnough(w, s.cond, b.env, b.out, f, g);
      var r := Eval(w, s.cond, b.env, b.out, f);
      if r.Value? && r.v.BoolV? && r.v.b {
        ExecEnough(w, s, Restrict(b.env, env.Keys), ret, r.out, f - 1, g - 1);
      }
    }
  }

  // ----- results -----

  /** The statement comes to an end, with this result. */
  ghost predicate Comes(w: World, s: Stmt, env: Env, ret: TType, out: seq<Event>, r: StmtResult) {
    !StmtOutOfFuel(r) && exists f: nat :: Exec(w, s, env, ret, out, f) == r
  }

  /** In every state the two come to the same end, or both to none. */
  ghost predicate Equivalent(w: World, a: Stmt, b: Stmt) {
    forall env, ret, out, r :: Comes(w, a, env, ret, out, r) <==> Comes(w, b, env, ret, out, r)
  }

  /** There is at most one result. */
  lemma OneResult(w: World, s: Stmt, env: Env, ret: TType, out: seq<Event>, q: StmtResult, r: StmtResult)
    requires Comes(w, s, env, ret, out, q) && Comes(w, s, env, ret, out, r)
    ensures q == r
  {
    hide Exec;
    var f: nat :| Exec(w, s, env, ret, out, f) == q;
    var g: nat :| Exec(w, s, env, ret, out, g) == r;
    if f <= g {
      ExecEnough(w, s, env, ret, out, f, g);
    } else {
      ExecEnough(w, s, env, ret, out, g, f);
    }
  }

  // ----- conditions -----

  /** An `if` on a negated condition is the `if` with its branches exchanged. */
  lemma NotExchanges(w: World, c: Expr, a: Stmt, b: Stmt)
    ensures Equivalent(w, If(Unary(Not, c), a, Some(b)), If(c, b, Some(a)))
  {
    forall env, ret, out, f: nat
      ensures Exec(w, If(Unary(Not, c), a, Some(b)), env, ret, out, f) == Exec(w, If(c, b, Some(a)), env, ret, out, f)
    {
      ExecIf(w, If(Unary(Not, c), a, Some(b)), env, ret, out, f);
      ExecIf(w, If(c, b, Some(a)), env, ret, out, f);
      EvalUnary(w, Unary(Not, c), env, out, f);
      hide Eval, Exec;
    }
  }

  /** `&&` is an `if` in an `if`: the right side is looked at only where the left one holds. */
  lemma AndIsNested(w: World, t: TType, l: Expr, r: Expr, a: Stmt, b: Option<Stmt>)
    ensures Equivalent(w, If(Binary(t, And, l, r), a, b), If(l, If(r, a, b), b))
  {
    forall env, ret, out, f: nat
      ensures Exec(w, If(Binary(t, And, l, r), a, b), env, ret, out, f) == Exec(w, If(l, If(r, a, b), b), env, ret, out, f)
    {
      ExecIf(w, If(Binary(t, And, l, r), a, b), env, ret, out, f);
      ExecIf(w, If(l, If(r, a, b), b), env, ret, out, f);
      EvalLogical(w, Binary(t, And, l, r), env, out, f);
      hide Eval, Exec;
      ExecIf(w, If(r, a, b), env, ret, Eval(w, l, env, out, f).out, f);
    }
  }

  /** `||` is an `if` in an `else`: the right side is looked at only where the left one fails. */
  lemma OrIsNested(w: World, t: TType, l: Expr, r: Expr, a: Stmt, b: Option<Stmt>)
    ensures Equivalent(w, If(Binary(t, Or, l, r), a, b), If(l, a, Some(If(r, a, b))))
  {
    forall env, ret, out, f: nat
      ensures Exec(w, If(Binary(t, Or, l, r), a, b), env, ret, out, f) == Exec(w, If(l, a, Some(If(r, a, b))), env, ret, out, f)
    {
      ExecIf(w, If(Binary(t, Or, l, r), a, b), env, ret, out, f);
      ExecIf(w, If(l, a, Some(If(r, a, b))), env, ret, out, f);
      EvalLogical(w, Binary(t, Or, l, r), env, out, f);
      hide Eval, Exec;
      ExecIf(w, If(r, a, b), env, ret, Eval(w, l, env, out, f).out, f);
    }
  }

  /** Which branch is which. */
  lemma ConstantConditions(w: World, a: Stmt, b: Stmt)
    ensures Equivalent(w, If(BoolLit(true), a, Some(b)), a) && Equivalent(w, If(BoolLit(false), a, Some(b)), b)
  {
    forall env, ret, out, f: nat
      ensures Exec(w, If(BoolLit(true), a, Some(b)), env, ret, out, f) == Exec(w, a, env, ret, out, f)
      ensures Exec(w, If(BoolLit(false), a, Some(b)), env, ret, out, f) == Exec(w, b, env, ret, out, f)
    {
      ExecIf(w, If(BoolLit(true), a, Some(b)), env, ret, out, f);
      ExecIf(w, If(BoolLit(false), a, Some(b)), env, ret, out, f);
      hide Exec;
    }
  }

  // ----- loops -----

  lemma RestrictAll(env: Env, keys: set<string>)
    requires env.Keys <= keys
    ensures Restrict(env, keys) == env
  {
  }

  lemma BlockKeepsKeys(w: World, s: Stmt, env: Env, ret: TType, out: seq<Event>, f: nat)
    requires s.Block?
    ensures var r := Exec(w, s, env, ret, out, f); r.Normal? ==> r.env.Keys == env.Keys
  {
    SureHasValue(w, s, env, ret, out, f, {});
    ExecBlock(w, s, env, ret, out, f);
    hide Exec, ExecSeq;
  }

  lemma {:induction false} WhileKeepsKeys(w: World, s: Stmt, env: Env, ret: TType, out: seq<Event>, f: nat)
    requires s.While?
    ensures var r := Exec(w, s, env, ret, out, f); r.Normal? ==> r.env.Keys <= env.Keys
    decreases f
  {
    ExecWhile(w, s, env, ret, out, f);
    hide Eval, Exec;
    var r := Eval(w, s.cond, env, out, f);
    if f > 0 && r.Value? && r.v.BoolV? && r.v.b {
      var b := Exec(w, s.body, env, ret, r.out, f);
      if b.Normal? {
        WhileKeepsKeys(w, s, Restrict(b.env, env.Keys), ret, b.out, f - 1);
      }
    }
  }

  function BodyThenWhile(c: Expr, body: Stmt): Stmt { Block([body, While(c, body)]) }

  /** The two parts in turn. */
  lemma ExecBodyThenWhile(w: World, c: Expr, body: Stmt, env: Env, ret: TType, out: seq<Event>, f: nat)
    requires body.Block?
    ensures var b := Exec(w, body, env, ret, out, f);
      && (b.Normal? ==> b.env.Keys == env.Keys)
      && Exec(w, BodyThenWhile(c, body), env, ret, out, f) ==
           if b.Normal? then Exec(w, While(c, body), b.env, ret, b.out, f) else b
  {
    var two, loop := [body, While(c, body)], While(c, body);
    ExecBlock(w, BodyThenWhile(c, body), env, ret, out, f);
    ExecSeqCons(w, two, env, ret, out, f);
    BlockKeepsKeys(w, body, env, ret, out, f);
    hide Exec;
    var b := Exec(w, body, env, ret, out, f);
    if b.Normal? {
      ExecLast(w, loop, b.env, ret, b.out, f);
      assert two[1..] == [loop];
      WhileKeepsKeys(w, loop, b.env, ret, b.out, f);
      var r := Exec(w, loop, b.env, ret, b.out, f);
      if r.Normal? {
        RestrictAll(r.env, env.Keys);
      }
    }
  }

  lemma ExecLast(w: World, s: Stmt, env: Env, ret: TType, out: seq<Event>, f: nat)
    ensures ExecSeq(w, [s], env, ret, out, f) == Exec(w, s, env, ret, out, f)
  {
    ExecSeqCons(w, [s], env, ret, out, f);
    hide Exec;
    assert [s][1..] == [];
  }

  lemma UnrolledFrom(w: World, c: Expr, body: Stmt, env: Env, ret: TType, out: seq<Event>, f: nat)
    requires body.Block? && !StmtOutOfFuel(Exec(w, While(c, body), env, ret, out, f))
    ensures Exec(w, If(c, BodyThenWhile(c, body), None), env, ret, out, f) == Exec(w, While(c, body), env, ret, out, f)
  {
    var loop := While(c, body);
    ExecWhile(w, loop, env, ret, out, f);
    ExecIf(w, If(c, BodyThenWhile(c, body), None), env, ret, out, f);
    hide Eval, Exec, BodyThenWhile;
    var r := Eval(w, c, env, out, f);
    if r.Value? && r.v.BoolV? && r.v.b {
      ExecBodyThenWhile(w, c, body, env, ret, r.out, f);
      var b := Exec(w, body, env, ret, r.out, f);
      if b.Normal? {
        RestrictAll(b.env, env.Keys);
        ExecEnough(w, loop, b.env, ret, b.out, f - 1, f);
      }
    }
  }

  lemma RolledFrom(w: World, c: Expr, body: Stmt, env: Env, ret: TType, out: seq<Event>, f: nat)
    requires body.Block? && !StmtOutOfFuel(Exec(w, If(c, BodyThenWhile(c, body), None), env, ret, out, f))
    ensures Exec(w, While(c, body), env, ret, out, f + 1) == Exec(w, If(c, BodyThenWhile(c, body), None), env, ret, out, f)
  {
    var loop := While(c, body);
    ExecWhile(w, loop, env, ret, out, f + 1);
    ExecIf(w, If(c, BodyThenWhile(c, body), None), env, ret, out, f);
    hide Eval, Exec, BodyThenWhile;
    EvalEnough(w, c, env, out, f, f + 1);
    var r := Eval(w, c, env, out, f);
    if r.Value? && r.v.BoolV? && r.v.b {
      ExecBodyThenWhile(w, c, body, env, ret, r.out, f);
      ExecEnough(w, body, env, ret, r.out, f, f + 1);
      var b := Exec(w, body, env, ret, r.out, f);
      if b.Normal? {
        RestrictAll(b.env, env.Keys);
      }
    }
  }

  /** A `while` loop is its body and the loop again, if its condition holds, and nothing if not. */
  lemma WhileUnrolls(w: World, c: Expr, body: Stmt)
    requires body.Block?
    ensures Equivalent(w, While(c, body), If(c, BodyThenWhile(c, body), None))
  {
    hide Exec, BodyThenWhile;
    var once := If(c, BodyThenWhile(c, body), None);
    forall env, ret, out, r
      ensures Comes(w, While(c, body), env, ret, out, r) <==> Comes(w, once, env, ret, out, r)
    {
      if f: nat :| Exec(w, While(c, body), env, ret, out, f) == r && !StmtOutOfFuel(r) {
        UnrolledFrom(w, c, body, env, ret, out, f);
      }
      if f: nat :| Exec(w, once, env, ret, out, f) == r && !StmtOutOfFuel(r) {
        RolledFrom(w, c, body, env, ret, out, f);
      }
    }
  }

  lemma {:induction false} DoToWhile(w: World, c: Expr, body: Stmt, env: Env, ret: TType, out: seq<Event>, f: nat)
    requires body.Block? && !StmtOutOfFuel(Exec(w, DoWhile(body, c), env, ret, out, f))
    ensures Exec(w, BodyThenWhile(c, body), env, ret, out, f) == Exec(w, DoWhile(body, c), env, ret, out, f)
    decreases f
  {
    var loop := While(c, body);
    ExecDoWhile(w, DoWhile(body, c), env, ret, out, f);
    ExecBodyThenWhile(w, c, body, env, ret, out, f);
    hide Eval, Exec, BodyThenWhile;
    var b := Exec(w, body, env, ret, out, f);
    if b.Normal? {
      RestrictAll(b.env, env.Keys);
      ExecWhile(w, loop, b.env, ret, b.out, f);
      var r := Eval(w, c, b.env, b.out, f);
      if r.Value? && r.v.BoolV? && r.v.b {
        DoToWhile(w, c, body, b.env, ret, r.out, f - 1);
        ExecBodyThenWhile(w, c, body, b.env, ret, r.out, f - 1);
        ExecEnough(w, body, b.env, ret, r.out, f - 1, f);
        var b2 := Exec(w, body, b.env, ret, r.out, f);
        if b2.Normal? {
          RestrictAll(b2.env, b.env.Keys);
        }
      }
    }
  }

  /** If the loop after the body has come to an end with fuel `f`, so has the do-while loop with `h`. */
  lemma {:induction false} WhileToDo(w: World, c: Expr, body: Stmt, env: Env, ret: TType, out: seq<Event>, x: nat, f: nat)
    returns (h: nat)
    requires body.Block? && Exec(w, body, env, ret, out, x).Normal?
    requires var b := Exec(w, body, env, ret, out, x); !StmtOutOfFuel(Exec(w, While(c, body), b.env, ret, b.out, f))
    ensures var b := Exec(w, body, env, ret, out, x);
      Exec(w, DoWhile(body, c), env, ret, out, h) == Exec(w, While(c, body), b.env, ret, b.out, f)
    decreases f
  {
    var loop := While(c, body);
    BlockKeepsKeys(w, body, env, ret, out, x);
    var b := Exec(w, body, env, ret, out, x);
    ExecWhile(w, loop, b.env, ret, b.out, f);
    hide Eval, Exec;
    RestrictAll(b.env, env.Keys);
    var r := Eval(w, c, b.env, b.out, f);
    h := if x > f then x else f;
    if r.Value? && r.v.BoolV? && r.v.b {
      var b2 := Exec(w, body, b.env, ret, r.out, f);
      if b2.Normal? {
        BlockKeepsKeys(w, body, b.env, ret, r.out, f);
        RestrictAll(b2.env, b.env.Keys);
        var g := WhileToDo(w, c, body, b.env, ret, r.out, f, f - 1);
        h := LoopAgain(w, c, body, env, ret, out, x, f, g);
      } else {
        ExecDoWhile(w, DoWhile(body, c), b.env, ret, r.out, f);
        h := LoopAgain(w, c, body, env, ret, out, x, f, f);
      }
    } else {
      ExecDoWhile(w, DoWhile(body, c), env, ret, out, h);
      ExecEnough(w, body, env, ret, out, x, h);
      EvalEnough(w, c, b.env, b.out, f, h);
    }
  }

  /** The body, the condition, which holds, and the loop again. */
  lemma LoopAgain(w: World, c: Expr, body: Stmt, env: Env, ret: TType, out: seq<Event>, x: nat, f: nat, g: nat)
    returns (h: nat)
    requires Exec(w, body, env, ret, out, x).Normal?
    requires var b := Exec(w, body, env, ret, out, x); b.env.Keys == env.Keys && Eval(w, c, b.env, b.out, f).Value?
    requires var b := Exec(w, body, env, ret, out, x);
      var r := Eval(w, c, b.env, b.out, f);
      r.v == BoolV(true) && !StmtOutOfFuel(Exec(w, DoWhile(body, c), b.env, ret, r.out, g))
    ensures var b := Exec(w, body, env, ret, out, x);
      Exec(w, DoWhile(body, c), env, ret, out, h) ==
        Exec(w, DoWhile(body, c), b.env, ret, Eval(w, c, b.env, b.out, f).out, g)
  {
    h := x + f + g + 1;
    ExecDoWhile(w, DoWhile(body, c), env, ret, out, h);
    hide Eval, Exec;
    var b := Exec(w, body, env, ret, out, x);
    RestrictAll(b.env, env.Keys);
    ExecEnough(w, body, env, ret, out, x, h);
    EvalEnough(w, c, b.env, b.out, f, h);
    ExecEnough(w, DoWhile(body, c), b.env, ret, Eval(w, c, b.env, b.out, f).out, g, h - 1);
  }

  /** A `do`-`while` loop is its body and then the `while` loop. */
  lemma DoWhileIsBodyThenWhile(w: World, c: Expr, body: Stmt)
    requires body.Block?
    ensures Equivalent(w, DoWhile(body, c), BodyThenWhile(c, body))
  {
    hide Exec, BodyThenWhile;
    forall env, ret, out, r
      ensures Comes(w, DoWhile(body, c), env, ret, out, r) <==> Comes(w, BodyThenWhile(c, body), env, ret, out, r)
    {
      if f: nat :| Exec(w, DoWhile(body, c), env, ret, out, f) == r && !StmtOutOfFuel(r) {
        DoToWhile(w, c, body, env, ret, out, f);
      }
      if f: nat :| Exec(w, BodyThenWhile(c, body), env, ret, out, f) == r && !StmtOutOfFuel(r) {
        DoFrom(w, c, body, env, ret, out, f);
      }
    }
  }

  lemma DoFrom(w: World, c: Expr, body: Stmt, env: Env, ret: TType, out: seq<Event>, f: nat)
    requires body.Block? && !StmtOutOfFuel(Exec(w, BodyThenWhile(c, body), env, ret, out, f))
    ensures Comes(w, DoWhile(body, c), env, ret, out, Exec(w, BodyThenWhile(c, body), env, ret, out, f))
  {
    hide Exec, BodyThenWhile;
    ExecBodyThenWhile(w, c, body, env, ret, out, f);
    if Exec(w, body, env, ret, out, f).Normal? {
      var h := WhileToDo(w, c, body, env, ret, out, f, f);
    } else {
      ExecDoWhile(w, DoWhile(body, c), env, ret, out, f + 1);
      ExecEnough(w, body, env, ret, out, f, f + 1);
    }
  }
}
