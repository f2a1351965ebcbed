/** Static scope: which names are visible where, and what the scope stack looks like. */
module Scoping {
  import opened Wrappers
  import opened Ast
  import opened Ir
  import opened Lowering

  /** The names visible after a statement: an assignment to a new name declares it.  The body of
      a do-while always runs, so what a bare declaration there binds stays visible. */
  function ScopeAfter(s: Stmt, names: set<string>): set<string> {
    match s
    case Assign(x, _, _) => names + {x}
    case DoWhile(body, _) => ScopeAfter(body, names)
    case _ => names
  }

  /** No bare declaration is the branch of an `if` or the body of a `while`: there the code binds
      the name for what follows although the declaration may not have been executed. */
  predicate WellScoped(s: Stmt, names: set<string>)
    decreases s
  {
    match s
    case Block(ss) => WellScopedSeq(ss, names)
    case If(_, thn, els) =>
      && WellScoped(thn, names) && ScopeAfter(thn, names) == names
      && (els.Some? ==> WellScoped(els.value, names) && ScopeAfter(els.value, names) == names)
    case While(_, body) => WellScoped(body, names) && ScopeAfter(body, names) == names
    case DoWhile(body, _) => WellScoped(body, names)
    case _ => true
  }

  predicate WellScopedSeq(ss: seq<Stmt>, names: set<string>)
    decreases ss
  {
    ss == [] || (WellScoped(ss[0], names) && WellScopedSeq(ss[1..], ScopeAfter(ss[0], names)))
  }

  function ParamNames(ps: seq<Param>): set<string> {
    set i | 0 <= i < |ps| :: ps[i].name
  }

  predicate WellScopedFunction(d: FunctionDef) {
    WellScoped(d.body, ParamNames(d.params))
  }

  /** No function call stands as a statement. */
  predicate NoCallStmts(s: Stmt)
    decreases s
  {
    match s
    case CallStmt(_) => false
    case Block(ss) => forall i :: 0 <= i < |ss| ==> NoCallStmts(ss[i])
    case If(_, thn, els) => NoCallStmts(thn) && (els.Some? ==> NoCallStmts(els.value))
    case While(_, body) => NoCallStmts(body)
    case DoWhile(body, _) => NoCallStmts(body)
    case _ => true
  }

  /** `names` are the names the scope stack resolves. */
  ghost predicate Resolves(scopes: seq<Scope>, names: set<string>) {
    scopes != [] && forall x :: x in names <==> Lookup(scopes, x).Some?
  }

  /** All of them. */
  ghost function Visible(scopes: seq<Scope>): set<string> {
    if scopes == [] then {} else Visible(scopes[..|scopes| - 1]) + scopes[|scopes| - 1].Keys
  }

  lemma {:induction false} VisibleNames(scopes: seq<Scope>)
    ensures forall x :: x in Visible(scopes) <==> Lookup(scopes, x).Some?
    decreases scopes
  {
    if scopes != [] {
      VisibleNames(scopes[..|scopes| - 1]);
    }
  }

  lemma ResolvesVisible(scopes: seq<Scope>, names: set<string>)
    requires Resolves(scopes, names)
    ensures names == Visible(scopes)
  {
    VisibleNames(scopes);
  }

  /** Outer scopes are untouched and what was visible keeps its meaning. */
  ghost predicate Refines(a: seq<Scope>, b: seq<Scope>, names: set<string>) {
    && |a| == |b| > 0 && a[..|a| - 1] == b[..|b| - 1]
    && forall x :: x in names ==> Lookup(b, x) == Lookup(a, x)
  }

  lemma LookupDeclared(scopes: seq<Scope>, x: string, r: nat)
    requires scopes != []
    ensures forall y :: Lookup(Declare(scopes, x, r), y) == if y == x then Some(r) else Lookup(scopes, y)
    ensures |Declare(scopes, x, r)| == |scopes|
    ensures Declare(scopes, x, r)[..|scopes| - 1] == scopes[..|scopes| - 1]
  {
    var d := Declare(scopes, x, r);
    assert d[..|d| - 1] == scopes[..|scopes| - 1];
  }

  lemma LookupPushed(scopes: seq<Scope>)
    ensures forall y :: Lookup(scopes + [map[]], y) == Lookup(scopes, y)
  {
    assert (scopes + [map[]])[..|scopes|] == scopes;
  }

  lemma AssignScopes(g: Gen, x: string, t: TType, from: TType, v: Operand)
    ensures LowerAssign(g, x, t, from, v).scopes ==
      if Lookup(g.scopes, x).Some? then g.scopes else Declare(g.scopes, x, NextReg(g))
  {
  }

  lemma BlockEffect(a: seq<Scope>, b: seq<Scope>, names: set<string>)
    requires Resolves(a, names) && Refines(a + [map[]], b, names)
    ensures Popped(b) == a
  {
    assert (a + [map[]])[..|a|] == a;
  }
}
