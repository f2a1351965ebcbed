/** What the static rules of `Declarations` say about the interpreter. */
module Executions {
  import opened Wrappers
  import opened Values
  import opened Ast
  import opened Source
  import opened Unfolding
  import opened Declarations

  /** A statement that control cannot get past never completes normally. */
  lemma {:induction false} NeverNormal(w: World, s: Stmt, env: Env, ret: TType, out: seq<Event>, fuel: nat)
    requires !Falls(s)
    ensures !Exec(w, s, env, ret, out, fuel).Normal?
    decreases s
  {
    match s
    case Return(_) =>
    case Block(ss) => SeqNeverNormal(w, ss, env, ret, out, fuel);
    case If(c, thn, els) =>
      var out1 := Eval(w, c, env, out, fuel).out;
      NeverNormal(w, thn, env, ret, out1, fuel);
      NeverNormal(w, els.value, env, ret, out1, fuel);
    case DoWhile(body, _) =>
      NeverNormal(w, body, env, ret, out, fuel);
  }

  lemma {:induction false} SeqNeverNormal(w: World, ss: seq<Stmt>, env: Env, ret: TType, out: seq<Event>, fuel: nat)
    requires !FallsAll(ss)
    ensures !ExecSeq(w, ss, env, ret, out, fuel).Normal?
    decreases ss
  {
    if !Falls(ss[0]) {
      NeverNormal(w, ss[0], env, ret, out, fuel);
    } else {
      var r := Exec(w, ss[0], env, ret, out, fuel);
      if r.Normal? {
        SeqNeverNormal(w, ss[1..], r.env, ret, r.out, fuel);
      }
    }
  }

  /** Where a statement completes, control can get past it, and the names that are sure after it
      have values. */
  lemma {:induction false} SureHasValue(w: World, s: Stmt, env: Env, ret: TType, out: seq<Event>, fuel: nat, bound: set<string>)
    ensures var r := Exec(w, s, env, ret, out, fuel);
      r.Normal? ==> Falls(s) && env.Keys <= r.env.Keys && SureAfter(s, bound, env.Keys) <= r.env.Keys
    decreases fuel, s, 1
  {
    hide Eval;
    var r := Exec(w, s, env, ret, out, fuel);
    if r.Normal? {
      if !Falls(s) {
        NeverNormal(w, s, env, ret, out, fuel);
      }
      match s
      case Block(ss) => SeqKeepsNames(w, ss, env, ret, out, fuel);
      case If(_, _, _) => BranchHasValue(w, s, env, ret, out, fuel, bound);
      case While(_, _) => LoopKeepsNames(w, s, env, ret, out, fuel);
      case DoWhile(_, _) => DoHasValue(w, s, env, ret, out, fuel, bound);
      case _ =>
    }
  }

  lemma {:induction false} SeqKeepsNames(w: World, ss: seq<Stmt>, env: Env, ret: TType, out: seq<Event>, fuel: nat)
    ensures var r := ExecSeq(w, ss, env, ret, out, fuel); r.Normal? ==> env.Keys <= r.env.Keys
    decreases fuel, ss
  {
    if ss != [] {
      SureHasValue(w, ss[0], env, ret, out, fuel, {});
      var r := Exec(w, ss[0], env, ret, out, fuel);
      if r.Normal? {
        SeqKeepsNames(w, ss[1..], r.env, ret, r.out, fuel);
      }
    }
  }

  lemma {:induction false} BranchHasValue(w: World, s: Stmt, env: Env, ret: TType, out: seq<Event>, fuel: nat, bound: set<string>)
    requires s.If? && Exec(w, s, env, ret, out, fuel).Normal?
    ensures var r := Exec(w, s, env, ret, out, fuel);
      env.Keys <= r.env.Keys && SureAfter(s, bound, env.Keys) <= r.env.Keys
    decreases fuel, s, 0
  {
    ExecIf(w, s, env, ret, out, fuel);
    hide Eval, Exec;
    var out1 := Eval(w, s.cond, env, out, fuel).out;
    SureHasValue(w, s.thn, env, ret, out1, fuel, bound);
    if s.els.Some? {
      SureHasValue(w, s.els.value, env, ret, out1, fuel, BoundAfter(s.thn, bound));
    }
  }

  lemma {:induction false} LoopKeepsNames(w: World, s: Stmt, env: Env, ret: TType, out: seq<Event>, fuel: nat)
    requires s.While?
    ensures var r := Exec(w, s, env, ret, out, fuel); r.Normal? ==> env.Keys <= r.env.Keys
    decreases fuel, s, 0
  {
    ExecWhile(w, s, env, ret, out, fuel);
    hide Eval, Exec;
    if fuel > 0 {
      var out1 := Eval(w, s.cond, env, out, fuel).out;
      SureHasValue(w, s.body, env, ret, out1, fuel, {});
      var b := Exec(w, s.body, env, ret, out1, fuel);
      if b.Normal? {
        assert Restrict(b.env, env.Keys).Keys == env.Keys;
        LoopKeepsNames(w, s, Restrict(b.env, env.Keys), ret, b.out, fuel - 1);
      }
    }
  }

  lemma {:induction false} DoHasValue(w: World, s: Stmt, env: Env, ret: TType, out: seq<Event>, fuel: nat, bound: set<string>)
    requires s.DoWhile?
    ensures var r := Exec(w, s, env, ret, out, fuel);
      r.Normal? ==> env.Keys <= r.env.Keys && SureAfter(s.body, bound, env.Keys) <= r.env.Keys
    decreases fuel, s, 0
  {
    ExecDoWhile(w, s, env, ret, out, fuel);
    hide Eval, Exec;
    if fuel > 0 {
      SureHasValue(w, s.body, env, ret, out, fuel, bound);
      var b := Exec(w, s.body, env, ret, out, fuel);
      if b.Normal? {
        assert Restrict(b.env, env.Keys).Keys == env.Keys;
        DoHasValue(w, s, Restrict(b.env, env.Keys), ret, Eval(w, s.cond, b.env, b.out, fuel).out, fuel - 1, bound);
      }
    }
  }
}
