/** Names declared twice: the parser takes the first parameter or function of a name, code generation
    and the interpreter the last.  Exactly when that makes no difference. */
module Duplicates {
  import opened Wrappers
  import opened Ast
  import opened Ir
  import opened Lowering
  import opened FlowGraph
  import Scoping
  import opened Typing
  import opened Parsing
  import opened Printing

  // ----- parameters -----

  predicate First(ps: seq<Param>, i: nat)
    requires i < |ps|
  {
    forall k :: 0 <= k < i ==> ps[k].name != ps[i].name
  }

  predicate Last(ps: seq<Param>, i: nat)
    requires i < |ps|
  {
    forall k :: i < k < |ps| ==> ps[k].name != ps[i].name
  }

  /** Of the parameters with one name the first and the last have one type. */
  predicate EndsAgree(ps: seq<Param>) {
    forall i, j :: 0 <= i < |ps| && 0 <= j < |ps| && ps[i].name == ps[j].name && First(ps, i) && Last(ps, j) ==>
      ps[i].ty == ps[j].ty
  }

  /** The type of a name in the parser's table is that of the first parameter so called. */
  lemma {:induction false} FirstCounts(ps: seq<Param>, x: string) returns (i: nat)
    requires x in ParamScope(ps)
    ensures i < |ps| && ps[i].name == x && First(ps, i) && Found(ParamScope(ps), x) == Some(ps[i].ty)
    decreases ps
  {
    var n := |ps| - 1;
    if x in ParamScope(ps[..n]) {
      i := FirstCounts(ps[..n], x);
    } else {
      i := n;
      forall k | 0 <= k < n ensures ps[k].name != x {
        Scoped(ps[..n], k);
        assert ps[..n][k].name == ps[k].name;
      }
    }
  }

  lemma {:induction false} Scoped(ps: seq<Param>, i: nat)
    requires i < |ps|
    ensures ps[i].name in ParamScope(ps) && ps[i].name in LastTypes(ps)
    decreases ps
  {
    if i < |ps| - 1 {
      Scoped(ps[..|ps| - 1], i);
    }
  }

  lemma {:induction false} LastCounts(ps: seq<Param>, x: string) returns (i: nat)
    requires x in LastTypes(ps)
    ensures i < |ps| && ps[i].name == x && Last(ps, i) && LastTypes(ps)[x] == ps[i].ty
    decreases ps
  {
    var n := |ps| - 1;
    if ps[n].name == x {
      i := n;
    } else {
      i := LastCounts(ps[..n], x);
    }
  }

  /** The cell a parameter's name is bound to when the body starts has the type of the last parameter
      of that name. */
  lemma {:induction false} CellHasLastType(g: Gen, ps: seq<Param>, x: string)
    requires g.scopes != [] && x in LastTypes(ps)
    ensures var h := LowerParams(g, ps);
      h.scopes != [] && Lookup(h.scopes, x).Some? && Defines(h.code, Lookup(h.scopes, x).value, PtrTo(ToLType(LastTypes(ps)[x])))
    decreases ps
  {
    hide LowerParam;
    var n := |ps| - 1;
    ParamsScoped(g, ps[..n]);
    OneMoreCell(LowerParams(g, ps[..n]), ps[n], n);
    if ps[n].name != x {
      CellHasLastType(g, ps[..n], x);
    }
  }

  lemma {:induction false} ParamsScoped(g: Gen, ps: seq<Param>)
    requires g.scopes != []
    ensures LowerParams(g, ps).scopes != []
    decreases ps
  {
    if ps != [] {
      ParamsScoped(g, ps[..|ps| - 1]);
    }
  }

  lemma OneMoreCell(g: Gen, p: Param, i: nat)
    requires g.scopes != []
    ensures var h := LowerParam(g, p, i);
      && h.scopes != [] && g.code.regs <= h.code.regs && Defines(h.code, NextReg(g), PtrTo(ToLType(p.ty)))
      && forall y :: Lookup(h.scopes, y) == if y == p.name then Some(NextReg(g)) else Lookup(g.scopes, y)
  {
    Scoping.LookupDeclared(g.scopes, p.name, NextReg(g));
  }

  /** The parser's type of a parameter's name is the type of its cell. */
  ghost predicate ReadAsStored(g: Gen, d: FunctionDef, x: string) {
    var scopes, t := BodyStart(g, d).scopes, Found(ParamScope(d.params), x);
    t.Some? && Lookup(scopes, x).Some? && Defines(BodyStart(g, d).code, Lookup(scopes, x).value, PtrTo(ToLType(t.value)))
  }

  /** When a body starts, every parameter's name has in the parser's table the type of the cell that
      code generation has bound it to, if and only if the first and the last parameter of each name
      have one type. */
  lemma ParametersReadAsStoredExactlyWhen(g: Gen, d: FunctionDef)
    requires forall i :: 0 <= i < |d.params| ==> d.params[i].ty != UNDEFINED
    ensures (forall i :: 0 <= i < |d.params| ==> ReadAsStored(g, d, d.params[i].name)) <==> EndsAgree(d.params)
  {
    hide LowerParams, ReadAsStored;
    var ps := d.params;
    ParserTakesLastExactlyWhen(ps);
    forall i | 0 <= i < |ps|
      ensures ReadAsStored(g, d, ps[i].name) <==> Found(ParamScope(ps), ps[i].name) == Some(LastTypes(ps)[ps[i].name])
    {
      Scoped(ps, i);
      NameReadAsStored(g, d, ps[i].name);
    }
  }

  lemma NameReadAsStored(g: Gen, d: FunctionDef, x: string)
    requires forall i :: 0 <= i < |d.params| ==> d.params[i].ty != UNDEFINED
    requires x in LastTypes(d.params) && x in ParamScope(d.params)
    ensures ReadAsStored(g, d, x) <==> Found(ParamScope(d.params), x) == Some(LastTypes(d.params)[x])
  {
    hide LowerParams, ParamScope, LastTypes, StartFunction;
    StartScoped(g, d);
    CellHasLastType(StartFunction(g, d), d.params, x);
    var i := FirstCounts(d.params, x);
    var j := LastCounts(d.params, x);
  }

  lemma StartScoped(g: Gen, d: FunctionDef)
    ensures StartFunction(g, d).scopes != []
  {
  }

  lemma ParserTakesLastExactlyWhen(ps: seq<Param>)
    ensures (forall i :: 0 <= i < |ps| ==> ps[i].name in LastTypes(ps))
    ensures (forall i :: 0 <= i < |ps| ==> Found(ParamScope(ps), ps[i].name) == Some(LastTypes(ps)[ps[i].name])) <==> EndsAgree(ps)
  {
    hide ParamScope, LastTypes, Found;
    forall i | 0 <= i < |ps| ensures ps[i].name in LastTypes(ps) {
      Scoped(ps, i);
    }
    forall i, j | 0 <= i < |ps| && 0 <= j < |ps| && ps[i].name == ps[j].name && First(ps, i) && Last(ps, j)
      ensures Found(ParamScope(ps), ps[i].name) == Some(ps[i].ty) && LastTypes(ps)[ps[i].name] == ps[j].ty
    {
      Scoped(ps, i);
      var a := FirstCounts(ps, ps[i].name);
      var b := LastCounts(ps, ps[i].name);
      assert a == i && b == j;
    }
    if EndsAgree(ps) {
      forall i | 0 <= i < |ps| ensures Found(ParamScope(ps), ps[i].name) == Some(LastTypes(ps)[ps[i].name]) {
        Scoped(ps, i);
        var a := FirstCounts(ps, ps[i].name);
        var b := LastCounts(ps, ps[i].name);
      }
    }
  }

  // ----- functions -----

  function FirstFunction(p: Program, f: string): (r: Option<nat>)
    ensures r.Some? ==> r.value < |p| && p[r.value].name == f && forall i :: 0 <= i < r.value ==> p[i].name != f
    ensures r.None? ==> forall i :: 0 <= i < |p| ==> p[i].name != f
  {
    if p == [] then None
    else
      match FirstFunction(p[..|p| - 1], f)
      case Some(i) => Some(i)
      case None => if p[|p| - 1].name == f then Some(|p| - 1) else None
  }

  /** The parser's table after these functions. */
  function FuncTable(p: Program): Table {
    if p == [] then map[] else Insert(FuncTable(p[..|p| - 1]), p[|p| - 1].name, p[|p| - 1].ty)
  }

  /** ... which is the one the next function is parsed with. */
  lemma {:induction false} ParsedWithTable(k: FloatReader, p: Program, i: nat, j: nat)
    requires i <= j < |p| && PrintableFile(k, FuncTable(p[..i]), p[i..])
    ensures PrintableFunction(k, FuncTable(p[..j]), p[j])
    decreases j - i
  {
    hide PrintableFunction;
    if i < j {
      assert p[i..][1..] == p[i + 1..] && p[..i + 1][..i] == p[..i];
      ParsedWithTable(k, p, i + 1, j);
    }
  }

  /** The type of a function in the parser's table is that of the first one so called. */
  lemma {:induction false} FirstFunctionCounts(p: Program, f: string)
    ensures Found(FuncTable(p), f) == if FirstFunction(p, f).Some? then Some(p[FirstFunction(p, f).value].ty) else None
    ensures f in FuncTable(p) <==> FirstFunction(p, f).Some?
    decreases p
  {
    if p != [] {
      FirstFunctionCounts(p[..|p| - 1], f);
    }
  }

  /** The functions code generation knows inside function `i`. */
  function FunctionsIn(p: Program, i: nat): map<string, nat>
    requires i < |p|
  {
    StartFunction(LowerProgram(p[..i]), p[i]).funcs
  }

  lemma {:induction false} GeneratorTakesLast(p: Program)
    ensures |LowerProgram(p).code.fns| == |p|
    ensures forall f :: f in LowerProgram(p).funcs <==> FindFunction(p, f).Some?
    ensures forall f :: f in LowerProgram(p).funcs ==> FindFunction(p, f) == Some(LowerProgram(p).funcs[f])
    decreases p
  {
    hide LowerFunction;
    if p != [] {
      GeneratorTakesLast(p[..|p| - 1]);
      OneMoreFunction(LowerProgram(p[..|p| - 1]), p[|p| - 1]);
    }
  }

  lemma OneMoreFunction(g: Gen, d: FunctionDef)
    ensures LowerFunction(g, d).funcs == StartFunction(g, d).funcs == g.funcs[d.name := |g.code.fns|]
    ensures |LowerFunction(g, d).code.fns| == |g.code.fns| + 1
  {
    hide LowerFunction;
    FunctionAppends(g, d);
    ShapeStartFunction(g, d);
  }

  /** Every function a body can call is the one whose type the parser took and the one the whole
      program means by the name. */
  ghost predicate CalleesAgree(p: Program, i: nat)
    requires i < |p|
  {
    forall f :: f in FunctionsIn(p, i) ==> FirstFunction(p, f) == Some(FunctionsIn(p, i)[f]) == FindFunction(p, f)
  }

  lemma KnownIn(p: Program, i: nat, f: string)
    requires i < |p|
    ensures f in FunctionsIn(p, i) <==> FindFunction(p[..i + 1], f).Some?
    ensures f in FunctionsIn(p, i) ==> FindFunction(p[..i + 1], f) == Some(FunctionsIn(p, i)[f])
  {
    hide LowerFunction;
    GeneratorTakesLast(p[..i]);
    OneMoreFunction(LowerProgram(p[..i]), p[i]);
    assert p[..i + 1][..i] == p[..i];
  }

  lemma CalleesAgreeExactlyWhen(p: Program)
    ensures (forall i :: 0 <= i < |p| ==> CalleesAgree(p, i)) <==> DistinctNames(p)
  {
    hide FunctionsIn, FindFunction, FirstFunction;
    if DistinctNames(p) {
      forall i, f | 0 <= i < |p| && f in FunctionsIn(p, i)
        ensures FirstFunction(p, f) == Some(FunctionsIn(p, i)[f]) == FindFunction(p, f)
      {
        KnownIn(p, i, f);
        var j := FunctionsIn(p, i)[f];
        assert p[..i + 1][j] == p[j] && p[j].name == f;
        assert FirstFunction(p, f).Some? && FindFunction(p, f).Some?;
      }
    } else {
      var i, j :| 0 <= i < j < |p| && p[i].name == p[j].name;
      var f := p[j].name;
      KnownIn(p, j, f);
      assert p[..j + 1][j] == p[j];
      var last := FindFunction(p[..j + 1], f);
      LastIsLast(p, j);
      assert last == Some(j);
      assert FirstFunction(p, f) != Some(j);
      assert !CalleesAgree(p, j);
    }
  }

  lemma LastIsLast(p: Program, j: nat)
    requires j < |p|
    ensures FindFunction(p[..j + 1], p[j].name) == Some(j)
  {
  }
}
