/** The code that is emitted keeps the rules under which a machine never goes wrong, if and only if
    the program compares no bool with an int and assigns what it reads. */
module SafePrograms {
  import opened Values
  import opened Ast
  import opened Ir
  import opened Lowering
  import opened FlowGraph
  import opened Paths
  import opened Declarations
  import opened Typing
  import opened WellTyped
  import opened Initialised
  import opened Offences
  import opened Safety
  import Source
  import opened Soundness
  import opened Correctness

  ghost predicate Careful(p: Program) {
    UnmixedProgram(p) && forall i :: 0 <= i < |p| ==> AssuredFunction(p[i])
  }

  lemma PathsAre(p: Program, i: nat)
    requires i < |LowerProgram(p).code.fns|
    ensures var c := LowerProgram(p).code;
      (forall path :: PathOf(p, i, path) ==> UsesAfterDefs(Trace(c, path))) <==> FunctionInitialised(c, i)
  {
    hide LowerProgram, UsesAfterDefs;
    var c := LowerProgram(p).code;
    NothingUsed();
    if FunctionInitialised(c, i) {
      forall path | PathOf(p, i, path) ensures UsesAfterDefs(Trace(c, path)) {
        assert path != [] ==> PathFrom(c, i, path);
      }
    }
    assert forall path :: PathFrom(c, i, path) ==> PathOf(p, i, path);
  }

  lemma NothingUsed()
    ensures UsesAfterDefs([])
  {
  }

  /** All rules on emitted code hold exactly of these programs. */
  lemma SoundExactlyWhenCareful(p: Program)
    requires TypedProgram(p) && DistinctNames(p) && LowerProgram(p).ok
    ensures Sound(LowerProgram(p).code) <==> Careful(p)
  {
    hide LowerProgram, TypedProgram, UnmixedProgram, AssuredFunction, TypedCode, WellFormed, UsesAfterDefs, FunctionInitialised, PathOf;
    var c := LowerProgram(p).code;
    ProgramWellFormed(p);
    TypesArePreservedExactlyWhen(p);
    forall i | 0 <= i < |p| ensures FunctionInitialised(c, i) <==> AssuredFunction(p[i]) {
      InitialisedExactlyWhenAssured(p, i);
      PathsAre(p, i);
    }
  }

  lemma ArgumentsHaveTypes(p: Program, i: nat, vs: seq<Val>)
    requires LowerProgram(p).ok && i < |p| && i < |LowerProgram(p).code.fns| && ArgsTyped(vs, p[i].params)
    ensures ArgsHaveTypes(vs, LowerProgram(p).code.fns[i].params)
  {
    hide LowerProgram;
    FunctionSignature(p, i);
  }

  lemma FunctionSignature(p: Program, i: nat)
    requires LowerProgram(p).ok && i < |p| && i < |LowerProgram(p).code.fns|
    ensures LowerProgram(p).code.fns[i].params == ToLTypes(p[i].params)
    ensures LowerProgram(p).code.fns[i].ret == ToLType(p[i].ty)
  {
    hide LowerProgram, LowerFunction, WellFormed;
    var g, d := LowerProgram(p[..i]), p[i];
    PrefixStep(p, i);
    PrefixExtends(p, i);
    PrefixExtends(p, i + 1);
    ProgramWellFormed(p[..i]);
    FunctionAppends(g, d);
    ShapeStartFunction(g, d);
    assert LowerFunction(g, d).code.fns[i] == Fn(d.name, ToLTypes(d.params), ToLType(d.ty), NextLabel(g));
  }

  /** A typed program that code generation accepts and that is careful: its code, started in any
      function with arguments of the declared types, faults on a division by zero or not at all.
      Call statements are allowed here; the interpreter plays no part. */
  lemma CarefulNeverGoesWrong(p: Program, ops: FloatOps, i: nat, vs: seq<Val>, n: nat)
    requires TypedProgram(p) && DistinctNames(p) && LowerProgram(p).ok && Careful(p)
    requires i < |p| && i < |LowerProgram(p).code.fns| && ArgsTyped(vs, p[i].params)
    ensures var c := LowerProgram(p).code;
      var s := State(Frame(c.fns[i].entry, 0, map[], vs, [], 0, []), [], [], Running);
      var t := Run(c, ops, s, n);
      && (t.status.Faulted? ==> t.status.f == DivisionByZero)
      && (t.status.Finished? ==> Source.HasType(t.status.v, p[i].ty))
  {
    hide LowerProgram, TypedProgram, Careful, Sound;
    SoundExactlyWhenCareful(p);
    ArgumentsHaveTypes(p, i, vs);
    FunctionSignature(p, i);
    CodeNeverGoesWrong(LowerProgram(p).code, ops, i, vs, n);
  }
}
