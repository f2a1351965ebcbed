/** The emitted code means what the program means: the theorems about whole runs. */
module Correctness {
  import opened Values
  import opened Ast
  import opened Source
  import opened Ir
  import opened Lowering
  import opened FlowGraph
  import opened Scoping
  import opened Calls
  import opened Simulation
  import opened Acceptance
  import opened Declarations

  /** What the theorems ask of a program: names resolve and calls fit, function names are distinct,
      every variable has been declared on each path to its uses, and no call stands as a statement. */
  ghost predicate Compilable(p: Program) {
    && AcceptsProgram(p) && DistinctNames(p)
    && forall i :: 0 <= i < |p| ==> AssuredFunction(p[i]) && NoCallStmts(p[i].body)
  }

  lemma CompilableLowers(p: Program)
    requires Compilable(p)
    ensures LowerProgram(p).ok
  {
    CodeGenerationSucceedsExactlyWhen(p);
  }

  // ----- linking -----

  lemma {:induction false} PrefixExtends(p: Program, i: nat)
    requires i <= |p|
    ensures Appends(LowerProgram(p[..i]), LowerProgram(p))
    decreases |p| - i
  {
    if i < |p| {
      assert p[..i + 1][..i] == p[..i];
      FunctionAppends(LowerProgram(p[..i]), p[i]);
      PrefixExtends(p, i + 1);
    } else {
      assert p[..i] == p;
    }
  }

  lemma {:induction false} PrefixKnows(p: Program, i: nat)
    requires i <= |p|
    ensures KnowsFunctions(LowerProgram(p[..i]), p) && |LowerProgram(p[..i]).code.fns| == i
    decreases i
  {
    hide LowerFunction, KnowsFunctions;
    if i == 0 {
      KnowsNothing(p);
    } else {
      PrefixStep(p, i - 1);
      PrefixKnows(p, i - 1);
      KnowsOneMore(LowerProgram(p[..i - 1]), p);
    }
  }

  lemma KnowsNothing(p: Program)
    ensures KnowsFunctions(EMPTY_GEN, p)
  {
  }

  lemma KnowsOneMore(g: Gen, p: Program)
    requires KnowsFunctions(g, p) && |g.code.fns| < |p|
    ensures var h := LowerFunction(g, p[|g.code.fns|]); KnowsFunctions(h, p) && |h.code.fns| == |g.code.fns| + 1
  {
    hide LowerFunction;
    FunctionAppends(g, p[|g.code.fns|]);
  }

  lemma FunctionIsLinked(p: Program, i: nat)
    requires Compilable(p) && i < |p|
    ensures LinkedFunction(p, LowerProgram(p).code, i)
  {
    hide LowerProgram, LowerFunction, DistinctNames, AcceptsProgram;
    CompilableLowers(p);
    PrefixKnows(p, i);
    PrefixKnows(p, i + 1);
    PrefixExtends(p, i + 1);
    PrefixStep(p, i);
    AppendsExtends(LowerProgram(p[..i + 1]), LowerProgram(p));
    FunctionAppends(LowerProgram(p[..i]), p[i]);
  }

  lemma PrefixStep(p: Program, i: nat)
    requires i < |p|
    ensures LowerProgram(p[..i + 1]) == LowerFunction(LowerProgram(p[..i]), p[i])
  {
    hide LowerFunction;
    assert p[..i + 1][..i] == p[..i];
  }

  lemma CompilableIsLinked(p: Program, ops: FloatOps)
    requires Compilable(p)
    ensures Linked(World(p, ops), LowerProgram(p).code)
  {
    hide LowerProgram, LinkedFunction, AcceptsProgram;
    forall i | 0 <= i < |p| ensures LinkedFunction(p, LowerProgram(p).code, i) {
      FunctionIsLinked(p, i);
    }
    PrefixKnows(p, |p|);
    assert p[..|p|] == p;
  }

  // ----- whole runs -----

  /** The machine about to run function `i` with arguments `vs`. */
  function Start(p: Program, i: nat, vs: seq<Val>): State
    requires i < |LowerProgram(p).code.fns|
  {
    State(Frame(LowerProgram(p).code.fns[i].entry, 0, map[], vs, [], 0, []), [], [], Running)
  }

  ghost predicate CanStart(p: Program, i: nat, vs: seq<Val>) {
    Compilable(p) && i < |p| && i < |LowerProgram(p).code.fns| && |vs| == |p[i].params|
  }

  /** The state after `n` steps. */
  function After(p: Program, ops: FloatOps, i: nat, vs: seq<Val>, n: nat): State
    requires i < |LowerProgram(p).code.fns|
  {
    Run(LowerProgram(p).code, ops, Start(p, i, vs), n)
  }

  /** What the interpreter makes of the call. */
  function Meaning(p: Program, ops: FloatOps, i: nat, vs: seq<Val>, fuel: nat): ExprResult
    requires i < |p| && |vs| == |p[i].params|
  {
    CallFunction(World(p, ops), i, vs, [], fuel)
  }

  /** The machine's way to stop for each of the interpreter's. */
  function StatusOf(r: ExprResult): Status {
    match r
    case Value(v, _) => Finished(v)
    case Halted(Timeout, _) => Running
    case Halted(FellOff, _) => ReachedUnreachable
    case Halted(DivByZero, _) => Faulted(DivisionByZero)
    case Halted(IllTyped, _) => Faulted(TypeMismatch)
    case Halted(Unbound, _) => Faulted(BadRegister)
  }

  lemma AllFunctionsKnown(p: Program, i: nat)
    requires Compilable(p) && i < |p|
    ensures i < |LowerProgram(p).code.fns|
  {
    PrefixKnows(p, |p|);
    assert p[..|p|] == p;
  }

  /** For every fuel, the machine reaches the interpreter's result: the same status and the same
      output.  If the fuel runs out, the machine has run at least that many steps without stopping. */
  lemma MachineFollowsInterpreter(p: Program, ops: FloatOps, i: nat, vs: seq<Val>, fuel: nat) returns (n: nat)
    requires CanStart(p, i, vs)
    ensures var r, t := Meaning(p, ops, i, vs, fuel), After(p, ops, i, vs, n);
      && t.status == StatusOf(r) && t.out == r.out
      && (r.Halted? ==> r.why != Unbound)
      && (r == Halted(Timeout, r.out) ==> n + 1 >= fuel)
  {
    var w, c, s := World(p, ops), LowerProgram(p).code, Start(p, i, vs);
    CompilableIsLinked(p, ops);
    n := SimCallee(w, c, i, vs, fuel, s);
    ContextOf(w, c, i);
    hide Linked, LowerProgram, CallFunction, BodyContext;
    n := TopReturn(BodyContext(w, c, i), s, CallFunction(w, i, vs, [], fuel), n, fuel);
  }

  /** With no caller left, a return ends the run. */
  lemma TopReturn(k: Context, s: State, r: ExprResult, m: nat, fuel: nat) returns (n: nat)
    requires s.callers == [] && CallOutcome(k, s, Go(k, s, m), r, m, fuel)
    ensures var t := Go(k, s, n);
      && t.status == StatusOf(r) && t.out == r.out && (r.Halted? ==> r.why != Unbound)
      && (r == Halted(Timeout, r.out) ==> n + 1 >= fuel)
  {
    n := m;
    if r.Value? {
      var t := Go(k, s, m);
      assert Go(k, t, 1) == Step(k.c, k.w.ops, t);
      n := SequelGo(k, s, m, 1);
    }
  }

  /** Every stop of the machine is one the interpreter has, with enough fuel. */
  lemma EveryStopIsExplained(p: Program, ops: FloatOps, i: nat, vs: seq<Val>, n: nat)
    requires CanStart(p, i, vs) && !After(p, ops, i, vs, n).status.Running?
    ensures var r, t := Meaning(p, ops, i, vs, n + 2), After(p, ops, i, vs, n);
      && t.status == StatusOf(r) && t.out == r.out && (r.Halted? ==> r.why != Unbound)
  {
    hide LowerProgram, CallFunction;
    var m := MachineFollowsInterpreter(p, ops, i, vs, n + 2);
    var c, s := LowerProgram(p).code, Start(p, i, vs);
    if m <= n {
      RunningBefore(c, ops, s, m, n);
    } else {
      RunningBefore(c, ops, s, n, m);
    }
  }

  /** The machine finishes with a value and an output exactly if the interpreter does. */
  lemma SameResults(p: Program, ops: FloatOps, i: nat, vs: seq<Val>, v: Val, out: seq<Event>)
    requires CanStart(p, i, vs)
    ensures (exists fuel: nat :: Meaning(p, ops, i, vs, fuel) == Value(v, out))
       <==> (exists n: nat :: After(p, ops, i, vs, n).status == Finished(v) && After(p, ops, i, vs, n).out == out)
  {
    if fuel: nat :| Meaning(p, ops, i, vs, fuel) == Value(v, out) {
      var n := MachineFollowsInterpreter(p, ops, i, vs, fuel);
    }
    if n: nat :| After(p, ops, i, vs, n).status == Finished(v) && After(p, ops, i, vs, n).out == out {
      EveryStopIsExplained(p, ops, i, vs, n);
      assert Meaning(p, ops, i, vs, n + 2) == Value(v, out);
    }
  }

  /** The trailing `unreachable` is reached exactly if the program falls off the end of a function. */
  lemma UnreachableExactlyWhenFallingOff(p: Program, ops: FloatOps, i: nat, vs: seq<Val>, out: seq<Event>)
    requires CanStart(p, i, vs)
    ensures (exists fuel: nat :: Meaning(p, ops, i, vs, fuel) == Halted(FellOff, out))
       <==> (exists n: nat :: After(p, ops, i, vs, n).status == ReachedUnreachable && After(p, ops, i, vs, n).out == out)
  {
    if fuel: nat :| Meaning(p, ops, i, vs, fuel) == Halted(FellOff, out) {
      var n := MachineFollowsInterpreter(p, ops, i, vs, fuel);
    }
    if n: nat :| After(p, ops, i, vs, n).status == ReachedUnreachable && After(p, ops, i, vs, n).out == out {
      EveryStopIsExplained(p, ops, i, vs, n);
      assert Meaning(p, ops, i, vs, n + 2) == Halted(FellOff, out);
    }
  }

  /** The machine runs forever exactly if no fuel is enough. */
  lemma SameDivergence(p: Program, ops: FloatOps, i: nat, vs: seq<Val>)
    requires CanStart(p, i, vs)
    ensures (forall fuel: nat :: StatusOf(Meaning(p, ops, i, vs, fuel)).Running?)
       <==> (forall n: nat :: After(p, ops, i, vs, n).status.Running?)
  {
    if forall fuel: nat :: StatusOf(Meaning(p, ops, i, vs, fuel)).Running? {
      forall n: nat ensures After(p, ops, i, vs, n).status.Running? {
        if !After(p, ops, i, vs, n).status.Running? {
          EveryStopIsExplained(p, ops, i, vs, n);
        }
      }
    }
    if forall n: nat :: After(p, ops, i, vs, n).status.Running? {
      forall fuel: nat ensures StatusOf(Meaning(p, ops, i, vs, fuel)).Running? {
        var n := MachineFollowsInterpreter(p, ops, i, vs, fuel);
        assert After(p, ops, i, vs, n).status.Running?;
      }
    }
  }

  /** Definite initialisation and control-flow safety: at no step of any run is a register read
      before it is written, a cell read before it is stored to, or the code left. */
  lemma NeverUndefined(p: Program, ops: FloatOps, i: nat, vs: seq<Val>, n: nat)
    requires CanStart(p, i, vs)
    ensures var t := After(p, ops, i, vs, n);
      t.status.Faulted? ==> t.status.f == DivisionByZero || t.status.f == TypeMismatch
  {
    if !After(p, ops, i, vs, n).status.Running? {
      EveryStopIsExplained(p, ops, i, vs, n);
    }
  }
}
