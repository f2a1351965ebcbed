/** Which names are surely declared where: a static rule on trees, exact for the emitted flow graph.

    A name is bound once the visit has passed its declaration in the text; it is sure where every
    path of the flow graph has passed the declaration too.  The two differ after a bare declaration
    that is a branch. */
module Declarations {
  import opened Wrappers
  import opened Ast
  import opened Ir
  import opened Lowering
  import opened Shape
  import opened Visits
  import opened Stages
  import opened Scoping

  /** Can control get past the statement, whatever the conditions in it? */
  predicate Falls(s: Stmt)
    decreases s
  {
    match s
    case Return(_) => false
    case Block(ss) => FallsAll(ss)
    case If(_, thn, els) => Falls(thn) || els.None? || Falls(els.value)
    case DoWhile(body, _) => Falls(body)
    case _ => true
  }

  predicate FallsAll(ss: seq<Stmt>)
    decreases ss
  {
    ss == [] || (Falls(ss[0]) && FallsAll(ss[1..]))
  }

  function NamesIn(e: Expr): set<string>
    decreases e
  {
    match e
    case Var(x, _) => {x}
    case Unary(_, sub) => NamesIn(sub)
    case Binary(_, _, l, r) => NamesIn(l) + NamesIn(r)
    case Call(_, args, _) => NamesInAll(args)
    case _ => {}
  }

  function NamesInAll(es: seq<Expr>): set<string>
    decreases es
  {
    if es == [] then {} else NamesIn(es[0]) + NamesInAll(es[1..])
  }

  /** The names bound after a visit. */
  function BoundAfter(s: Stmt, bound: set<string>): set<string>
    decreases s
  {
    match s
    case Assign(x, _, _) => bound + {x}
    case If(_, thn, els) =>
      if els.Some? then BoundAfter(els.value, BoundAfter(thn, bound)) else BoundAfter(thn, bound)
    case While(_, body) => BoundAfter(body, bound)
    case DoWhile(body, _) => BoundAfter(body, bound)
    case _ => bound
  }

  /** The names that are sure after the statement, on the paths that get past it. */
  function SureAfter(s: Stmt, bound: set<string>, sure: set<string>): set<string>
    decreases s
  {
    match s
    case Assign(x, _, _) => sure + {x}
    case If(_, thn, els) =>
      var a := SureAfter(thn, bound, sure);
      var b := if els.Some? then SureAfter(els.value, BoundAfter(thn, bound), sure) else sure;
      if !Falls(thn) then b else if els.Some? && !Falls(els.value) then a else a * b
    case DoWhile(body, _) => SureAfter(body, bound, sure)
    case _ => sure
  }

  /** Every use of a bound name, in code that some path reaches, is of a sure one. */
  predicate Assured(s: Stmt, bound: set<string>, sure: set<string>)
    decreases s
  {
    match s
    case Assign(x, _, e) => NamesIn(e) <= sure && (x in bound ==> x in sure)
    case Print(e) => NamesIn(e) <= sure
    case Return(e) => NamesIn(e) <= sure
    case CallStmt(_) => true
    case Block(ss) => AssuredAll(ss, bound, sure)
    case If(c, thn, els) =>
      && NamesIn(c) <= sure && Assured(thn, bound, sure)
      && (els.Some? ==> Assured(els.value, BoundAfter(thn, bound), sure))
    case While(c, body) => NamesIn(c) <= sure && Assured(body, bound, sure)
    case DoWhile(body, c) =>
      Assured(body, bound, sure) && (Falls(body) ==> NamesIn(c) <= SureAfter(body, bound, sure))
  }

  predicate AssuredAll(ss: seq<Stmt>, bound: set<string>, sure: set<string>)
    decreases ss
  {
    ss == [] ||
    (&& Assured(ss[0], bound, sure)
     && (Falls(ss[0]) ==> AssuredAll(ss[1..], BoundAfter(ss[0], bound), SureAfter(ss[0], bound, sure))))
  }

  function BoundAfterAll(ss: seq<Stmt>, bound: set<string>): set<string>
    decreases ss
  {
    if ss == [] then bound else BoundAfterAll(ss[1..], BoundAfter(ss[0], bound))
  }

  function SureAfterAll(ss: seq<Stmt>, bound: set<string>, sure: set<string>): set<string>
    decreases ss
  {
    if ss == [] then sure
    else SureAfterAll(ss[1..], BoundAfter(ss[0], bound), SureAfter(ss[0], bound, sure))
  }

  predicate AssuredFunction(d: FunctionDef) {
    Assured(d.body, ParamNames(d.params), ParamNames(d.params))
  }

  /** With more names sure, more is allowed. */
  lemma {:induction false} MoreSure(s: Stmt, bound: set<string>, a: set<string>, b: set<string>)
    requires a <= b
    ensures SureAfter(s, bound, a) <= SureAfter(s, bound, b)
    ensures Assured(s, bound, a) ==> Assured(s, bound, b)
    decreases s
  {
    match s
    case Block(ss) => MoreSureAll(ss, bound, a, b);
    case If(_, thn, els) =>
      MoreSure(thn, bound, a, b);
      if els.Some? {
        MoreSure(els.value, BoundAfter(thn, bound), a, b);
      }
    case While(_, body) => MoreSure(body, bound, a, b);
    case DoWhile(body, _) => MoreSure(body, bound, a, b);
    case _ =>
  }

  lemma {:induction false} MoreSureAll(ss: seq<Stmt>, bound: set<string>, a: set<string>, b: set<string>)
    requires a <= b
    ensures AssuredAll(ss, bound, a) ==> AssuredAll(ss, bound, b)
    decreases ss
  {
    if ss != [] {
      MoreSure(ss[0], bound, a, b);
      MoreSureAll(ss[1..], BoundAfter(ss[0], bound), SureAfter(ss[0], bound, a), SureAfter(ss[0], bound, b));
    }
  }

  lemma {:induction false} NamesGrow(s: Stmt, bound: set<string>, sure: set<string>)
    requires sure <= bound
    ensures bound <= BoundAfter(s, bound) && sure <= SureAfter(s, bound, sure) <= BoundAfter(s, bound)
    decreases s
  {
    match s
    case If(_, thn, els) =>
      NamesGrow(thn, bound, sure);
      if els.Some? {
        NamesGrow(els.value, BoundAfter(thn, bound), sure);
      }
    case While(_, body) => NamesGrow(body, bound, sure);
    case DoWhile(body, _) => NamesGrow(body, bound, sure);
    case _ =>
  }

  /** A bound name that is not sure does not become sure. */
  lemma {:induction false} VagueStays(s: Stmt, bound: set<string>, sure: set<string>)
    requires sure <= bound && Assured(s, bound, sure)
    ensures forall x :: x in bound && x in SureAfter(s, bound, sure) && Falls(s) ==> x in sure
    decreases s
  {
    match s
    case If(_, thn, els) =>
      NamesGrow(thn, bound, sure);
      VagueStays(thn, bound, sure);
      if els.Some? {
        VagueStays(els.value, BoundAfter(thn, bound), sure);
      }
    case DoWhile(body, _) => VagueStays(body, bound, sure);
    case _ =>
  }

  lemma {:induction false} VagueStaysAll(ss: seq<Stmt>, bound: set<string>, sure: set<string>)
    requires sure <= bound && AssuredAll(ss, bound, sure) && FallsAll(ss)
    ensures forall x :: x in bound && x in SureAfterAll(ss, bound, sure) ==> x in sure
    ensures bound <= BoundAfterAll(ss, bound)
    decreases ss
  {
    if ss != [] {
      NamesGrow(ss[0], bound, sure);
      VagueStays(ss[0], bound, sure);
      VagueStaysAll(ss[1..], BoundAfter(ss[0], bound), SureAfter(ss[0], bound, sure));
    }
  }

  // ----- well-scoped functions -----

  /** A well-scoped statement whose names all resolve is assured: with no bare declaration as a
      branch every bound name is sure. */
  lemma {:induction false} WellScopedIsSure(s: Stmt, names: set<string>)
    requires WellScoped(s, names)
    ensures BoundAfter(s, names) == SureAfter(s, names, names) == ScopeAfter(s, names)
    decreases s
  {
    match s
    case If(_, thn, els) =>
      WellScopedIsSure(thn, names);
      if els.Some? {
        WellScopedIsSure(els.value, names);
      }
    case While(_, body) => WellScopedIsSure(body, names);
    case DoWhile(body, _) => WellScopedIsSure(body, names);
    case _ =>
  }

  // ----- the scope stack -----

  /** What a visit does to the scope stack: what was bound keeps its cell, and what is new has a
      new one. */
  ghost predicate Rebound(g: Gen, h: Gen, bound: set<string>, after: set<string>) {
    && Refines(g.scopes, h.scopes, bound) && Resolves(h.scopes, after) && bound <= after
    && NextReg(g) <= NextReg(h)
    && forall x :: x in after && x !in bound ==>
         Lookup(h.scopes, x).Some? && NextReg(g) <= Lookup(h.scopes, x).value < NextReg(h)
  }

  lemma ReboundThen(g: Gen, h: Gen, k: Gen, a: set<string>, b: set<string>, c: set<string>)
    requires Rebound(g, h, a, b) && Rebound(h, k, b, c)
    ensures Rebound(g, k, a, c)
  {
    hide Resolves;
    forall x | x in c && x !in a
      ensures Lookup(k.scopes, x).Some? && NextReg(g) <= Lookup(k.scopes, x).value < NextReg(k)
    {
      if x in b {
        assert Lookup(k.scopes, x) == Lookup(h.scopes, x);
      }
    }
  }

  lemma SameScopes(g: Gen, h: Gen, bound: set<string>)
    requires Resolves(g.scopes, bound) && h.scopes == g.scopes && NextReg(g) <= NextReg(h)
    ensures Rebound(g, h, bound, bound)
  {
  }

  lemma GrowsMore(g: Gen, h: Gen)
    requires Grows(g, h)
    ensures NextReg(g) <= NextReg(h)
  {
  }

  lemma ReboundAssign(g: Gen, x: string, t: TType, from: TType, v: Operand, bound: set<string>, lo: nat)
    requires Resolves(g.scopes, bound) && Ready(g, lo)
    ensures Rebound(g, LowerAssign(g, x, t, from, v), bound, bound + {x})
  {
    AssignScopes(g, x, t, from, v);
    ShapeAssign(g, x, t, from, v, lo);
    GrowsMore(g, LowerAssign(g, x, t, from, v));
    if Lookup(g.scopes, x).None? {
      LookupDeclared(g.scopes, x, NextReg(g));
    }
  }

  /** For every statement, well scoped or not. */
  lemma {:induction false} ReboundStmt(g: Gen, s: Stmt, bound: set<string>, lo: nat)
    requires Ready(g, lo) && Resolves(g.scopes, bound) && LowerStmt(g, s).ok
    ensures Rebound(g, LowerStmt(g, s), bound, BoundAfter(s, bound))
    decreases s
  {
    hide Resolves, Refines, Ready, Rebound, Settled, Tidy;
    ShapeStmt(g, s, lo);
    GrowsMore(g, LowerStmt(g, s));
    match s
    case Assign(x, t, rhs) =>
      ShapeExpr(g, rhs, lo);
      var r := LowerExpr(g, rhs);
      GrowsMore(g, r.g);
      SameScopes(g, r.g, bound);
      ReboundAssign(r.g, x, t, rhs.Type(), r.operand.value, bound, lo);
      ReboundThen(g, r.g, LowerStmt(g, s), bound, bound, bound + {x});
    case Print(e) =>
      ShapeExpr(g, e, lo);
      SameScopes(g, LowerStmt(g, s), bound);
    case Return(e) =>
      ShapeExpr(g, e, lo);
      SameScopes(g, LowerStmt(g, s), bound);
    case CallStmt(_) =>
      SameScopes(g, g, bound);
    case Block(_) => ReboundBlock(g, s, bound, lo);
    case If(_, _, _) => ReboundIf(g, s, bound, lo);
    case While(_, _) => ReboundWhile(g, s, bound, lo);
    case DoWhile(_, _) => ReboundDoWhile(g, s, bound, lo);
  }

  lemma {:induction false} ReboundBlock(g: Gen, s: Stmt, bound: set<string>, lo: nat)
    requires s.Block? && Ready(g, lo) && Resolves(g.scopes, bound) && LowerStmt(g, s).ok
    ensures Rebound(g, LowerStmt(g, s), bound, bound)
    decreases s, 0
  {
    hide Rebound, Resolves, Refines, Grows, Settled;
    var g0 := g.(scopes := g.scopes + [map[]]);
    PushedReady(g, bound, lo);
    ReboundSeq(g0, s.stmts, bound, lo);
    BlockEffect(g.scopes, LowerSeq(g0, s.stmts).scopes, bound);
    ShapeStmt(g, s, lo);
    GrowsMore(g, LowerStmt(g, s));
    SameScopes(g, LowerStmt(g, s), bound);
  }

  lemma PushedReady(g: Gen, bound: set<string>, lo: nat)
    requires Ready(g, lo) && Resolves(g.scopes, bound)
    ensures var h := g.(scopes := g.scopes + [map[]]); Ready(h, lo) && Resolves(h.scopes, bound)
    ensures forall x :: Lookup(g.scopes + [map[]], x) == Lookup(g.scopes, x)
  {
    UnderwayStart(g, {}, lo);
    ShapeRescoped(g, g, g.scopes + [map[]], lo);
    LookupPushed(g.scopes);
  }

  lemma {:induction false} ReboundSeq(g: Gen, ss: seq<Stmt>, bound: set<string>, lo: nat)
    requires Ready(g, lo) && Resolves(g.scopes, bound) && LowerSeq(g, ss).ok
    ensures Refines(g.scopes, LowerSeq(g, ss).scopes, bound)
    decreases ss
  {
    hide Rebound, Resolves, Settled, Tidy;
    if ss == [] {
      RefinesSelf(g, bound);
    } else {
      ShapeStmt(g, ss[0], lo);
      var g1 := LowerStmt(g, ss[0]);
      SeqGoesOn(g, ss, lo);
      ReboundStmt(g, ss[0], bound, lo);
      ReboundParts(g, g1, bound, BoundAfter(ss[0], bound));
      if !Terminated(InsertBlock(g1)) {
        ReboundSeq(g1, ss[1..], BoundAfter(ss[0], bound), lo);
      }
    }
  }

  lemma RefinesSelf(g: Gen, bound: set<string>)
    requires Resolves(g.scopes, bound)
    ensures Refines(g.scopes, g.scopes, bound)
  {
  }

  lemma ReboundParts(g: Gen, h: Gen, bound: set<string>, after: set<string>)
    requires Rebound(g, h, bound, after)
    ensures Refines(g.scopes, h.scopes, bound) && Resolves(h.scopes, after) && bound <= after
  {
  }

  /** The first statement of a sequence and what is visited after it. */
  lemma SeqGoesOn(g: Gen, ss: seq<Stmt>, lo: nat)
    requires ss != [] && Ready(g, lo) && LowerSeq(g, ss).ok
    ensures var g1 := LowerStmt(g, ss[0]);
      && g1.ok && StmtShape(g, g1, lo)
      && if Terminated(InsertBlock(g1)) then LowerSeq(g, ss) == g1
         else Ready(g1, lo) && LowerSeq(g, ss) == LowerSeq(g1, ss[1..]) && LowerSeq(g1, ss[1..]).ok
  {
    hide Settled;
    ShapeStmt(g, ss[0], lo);
    var g1 := LowerStmt(g, ss[0]);
  }

  lemma {:induction false} ReboundIf(g: Gen, s: Stmt, bound: set<string>, lo: nat)
    requires s.If? && Ready(g, lo) && Resolves(g.scopes, bound) && LowerStmt(g, s).ok
    ensures Rebound(g, LowerStmt(g, s), bound, BoundAfter(s, bound))
    decreases s, 0
  {
    hide LowerStmt, LowerExpr, Resolves, Refines, Rebound, Settled, Tidy;
    IfSucceeds(g, s, lo);
    var st := StagesOfIf(g, s).value;
    ShapeOfThen(g, s, lo);
    ShapeOfElse(g, s, lo);
    GrowsMore(g, st.test.g);
    GrowsMore(st.test.g, st.thenStart);
    SameScopes(g, st.thenStart, bound);
    ReboundStmt(st.thenStart, s.thn, bound, lo);
    var b1 := BoundAfter(s.thn, bound);
    ReboundParts(st.thenStart, st.thenEnd, bound, b1);
    SameScopes(st.thenEnd, st.elseStart, b1);
    ReboundThen(g, st.thenStart, st.thenEnd, bound, bound, b1);
    ReboundThen(g, st.thenEnd, st.elseStart, bound, b1, b1);
    var b2 := BoundAfter(s, bound);
    if s.els.Some? {
      ReboundStmt(st.elseStart, s.els.value, b1, lo);
      ReboundThen(g, st.elseStart, st.elseEnd, bound, b1, b2);
    }
    ReboundParts(g, st.elseEnd, bound, b2);
    SameScopes(st.elseEnd, st.end, b2);
    ReboundThen(g, st.elseEnd, st.end, bound, b2, b2);
  }

  lemma {:induction false} ReboundWhile(g: Gen, s: Stmt, bound: set<string>, lo: nat)
    requires s.While? && Ready(g, lo) && Resolves(g.scopes, bound) && LowerStmt(g, s).ok
    ensures Rebound(g, LowerStmt(g, s), bound, BoundAfter(s, bound))
    decreases s, 0
  {
    hide LowerStmt, LowerExpr, Resolves, Refines, Rebound, Settled, Tidy;
    WhileSucceeds(g, s, lo);
    var st := StagesOfWhile(g, s).value;
    ShapeOfLoop(g, s, lo);
    ShapeOfLoopEnd(g, s, lo);
    GrowsMore(g, st.bodyStart);
    SameScopes(g, st.bodyStart, bound);
    ReboundStmt(st.bodyStart, s.body, bound, lo);
    var b1 := BoundAfter(s.body, bound);
    ReboundThen(g, st.bodyStart, st.bodyEnd, bound, bound, b1);
    ReboundParts(g, st.bodyEnd, bound, b1);
    SameScopes(st.bodyEnd, st.end, b1);
    ReboundThen(g, st.bodyEnd, st.end, bound, b1, b1);
  }

  lemma {:induction false} ReboundDoWhile(g: Gen, s: Stmt, bound: set<string>, lo: nat)
    requires s.DoWhile? && Ready(g, lo) && Resolves(g.scopes, bound) && LowerStmt(g, s).ok
    ensures Rebound(g, LowerStmt(g, s), bound, BoundAfter(s, bound))
    decreases s, 0
  {
    hide Resolves, Refines, Rebound, Settled, Tidy, StartDoWhile;
    ShapeStartDoWhile(g, lo);
    var g0 := StartDoWhile(g);
    GrowsMore(g, g0);
    SameScopes(g, g0, bound);
    ReboundStmt(g0, s.body, bound, lo);
    var g1, b1 := LowerStmt(g0, s.body), BoundAfter(s.body, bound);
    ReboundThen(g, g0, g1, bound, bound, b1);
    ReboundParts(g, g1, bound, b1);
    DoTail(g, s, g1, lo);
    SameScopes(g1, LowerStmt(g, s), b1);
    ReboundThen(g, g1, LowerStmt(g, s), bound, b1, b1);
  }

  /** After the body only the test's code is added. */
  lemma DoTail(g: Gen, s: Stmt, g1: Gen, lo: nat)
    requires s.DoWhile? && Ready(g, lo) && LowerStmt(g, s).ok && g1 == LowerStmt(StartDoWhile(g), s.body)
    ensures LowerStmt(g, s).scopes == g1.scopes && NextReg(g1) <= NextReg(LowerStmt(g, s))
  {
    hide Settled, StartDoWhile;
    ShapeStartDoWhile(g, lo);
    ShapeStmt(StartDoWhile(g), s.body, lo);
    if !Terminated(InsertBlock(g1)) {
      ShapeExpr(g1, s.cond, lo);
      GrowsMore(g1, LowerExpr(g1, s.cond).g);
    }
  }

  // ----- parameters -----

  lemma NothingResolved(g: Gen, d: FunctionDef)
    ensures Resolves(StartFunction(g, d).scopes, {})
  {
  }

  lemma {:induction false} ParamsResolve(g: Gen, ps: seq<Param>)
    requires Resolves(g.scopes, {})
    ensures Resolves(LowerParams(g, ps).scopes, ParamNames(ps)) && LowerParams(g, ps).ok == g.ok
    decreases ps
  {
    hide Resolves, LowerParam;
    if ps == [] {
      assert ParamNames(ps) == {};
    } else {
      var n := |ps| - 1;
      ParamsResolve(g, ps[..n]);
      ParamResolves(LowerParams(g, ps[..n]), ps[n], n, ParamNames(ps[..n]));
      assert ParamNames(ps) == ParamNames(ps[..n]) + {ps[n].name};
    }
  }

  lemma ParamResolves(g: Gen, p: Param, i: nat, names: set<string>)
    requires Resolves(g.scopes, names)
    ensures Resolves(LowerParam(g, p, i).scopes, names + {p.name}) && LowerParam(g, p, i).ok == g.ok
  {
    LookupDeclared(g.scopes, p.name, NextReg(g));
  }

  // ----- control gets past a statement -----

  /** If control can get past a statement, its visit leaves the insert block open. */
  lemma {:induction false} FallsOpen(g: Gen, s: Stmt, lo: nat)
    requires Ready(g, lo) && LowerStmt(g, s).ok && Falls(s)
    ensures Ready(LowerStmt(g, s), lo)
    decreases s
  {
    hide Settled, Underway, LowerExpr;
    match s
    case Assign(x, t, rhs) =>
      ShapeExpr(g, rhs, lo);
      var r := LowerExpr(g, rhs);
      ShapeAssign(r.g, x, t, rhs.Type(), r.operand.value, lo);
    case Print(e) =>
      ShapeExpr(g, e, lo);
      var r := LowerExpr(g, e);
      ShapePrint(r.g, e.Type(), r.operand.value, lo);
    case CallStmt(_) =>
    case Block(ss) =>
      var g0 := g.(scopes := g.scopes + [map[]]);
      RescopedReady(g, g0.scopes, lo);
      FallsOpenSeq(g0, ss, lo);
      var g1 := LowerSeq(g0, ss);
      RescopedReady(g1, Popped(g1.scopes), lo);
    case If(_, _, _) =>
      IfSucceeds(g, s, lo);
      ShapeOfElse(g, s, lo);
    case While(_, _) =>
      WhileSucceeds(g, s, lo);
      ShapeOfLoopEnd(g, s, lo);
    case DoWhile(body, _) =>
      ShapeStartDoWhile(g, lo);
      FallsOpen(StartDoWhile(g), body, lo);
      DoSucceeds(g, s, lo);
      ShapeOfDo(g, s, lo);
  }

  lemma RescopedReady(g: Gen, scopes: seq<Scope>, lo: nat)
    requires Ready(g, lo)
    ensures Ready(g.(scopes := scopes), lo)
  {
    UnderwayStart(g, {}, lo);
    ShapeRescoped(g, g, scopes, lo);
  }

  lemma {:induction false} FallsOpenSeq(g: Gen, ss: seq<Stmt>, lo: nat)
    requires Ready(g, lo) && LowerSeq(g, ss).ok && FallsAll(ss)
    ensures Ready(LowerSeq(g, ss), lo)
    decreases ss
  {
    hide Tidy;
    if ss != [] {
      SeqGoesOn(g, ss, lo);
      FallsOpen(g, ss[0], lo);
      FallsOpenSeq(LowerStmt(g, ss[0]), ss[1..], lo);
    }
  }

  // ----- statements that end their block -----

  /** Does the statement always end in a `return`, in such a way that nothing is generated after it? */
  predicate Ends(s: Stmt)
    decreases s
  {
    s.Return? || (s.Block? && EndsSeq(s.stmts))
  }

  predicate EndsSeq(ss: seq<Stmt>)
    decreases ss
  {
    ss != [] && (Ends(ss[0]) || EndsSeq(ss[1..]))
  }

  /** The insert block is left with a terminator exactly by statements that end in a `return`. */
  lemma {:induction false} EndsExactly(g: Gen, s: Stmt, lo: nat)
    requires Ready(g, lo) && LowerStmt(g, s).ok && g.cur < |g.code.fns|
    ensures Terminated(InsertBlock(LowerStmt(g, s))) <==> Ends(s)
    decreases s
  {
    hide Settled, Tidy;
    match s
    case Assign(x, t, rhs) =>
      ShapeExpr(g, rhs, lo);
      var g1 := LowerExpr(g, rhs);
      ShapeAssign(g1.g, x, t, rhs.Type(), g1.operand.value, lo);
    case Print(e) =>
      ShapeExpr(g, e, lo);
      var g1 := LowerExpr(g, e);
      ShapePrint(g1.g, e.Type(), g1.operand.value, lo);
    case Return(e) =>
      ShapeExpr(g, e, lo);
      ReturnEnds(LowerExpr(g, e), lo);
    case CallStmt(_) =>
    case Block(ss) =>
      UnderwayStart(g, {}, lo);
      ShapeRescoped(g, g, g.scopes + [map[]], lo);
      EndsSeqExactly(g.(scopes := g.scopes + [map[]]), ss, lo);
    case If(_, _, _) =>
      IfSucceeds(g, s, lo);
      ShapeOfElse(g, s, lo);
    case While(_, _) =>
      WhileSucceeds(g, s, lo);
      ShapeOfLoopEnd(g, s, lo);
    case DoWhile(_, _) => DoEndsOpen(g, s, lo);
  }

  lemma ReturnEnds(r: Lowered, lo: nat)
    requires Ready(r.g, lo) && r.operand.Some? && r.g.cur < |r.g.code.fns|
    ensures Terminated(InsertBlock(LowerReturn(r.g, r.operand.value)))
  {
    ShapeCast(r.g, r.operand.value, r.g.code.fns[r.g.cur].ret, lo);
  }

  lemma DoEndsOpen(g: Gen, s: Stmt, lo: nat)
    requires s.DoWhile? && Ready(g, lo) && LowerStmt(g, s).ok
    ensures !Terminated(InsertBlock(LowerStmt(g, s)))
  {
    hide LowerExpr, Settled, Tidy, StartDoWhile;
    var l, g0 := NextLabel(g), StartDoWhile(g);
    ShapeStartDoWhile(g, lo);
    ShapeStmt(g0, s.body, lo);
    var g1 := LowerStmt(g0, s.body);
    if Terminated(InsertBlock(g1)) {
      ShapeNested(g, g0, g1, {l + 1}, lo);
      ShapeSwitch(g, g1, l + 1, {l + 1}, {}, lo);
    } else {
      DoSucceeds(g, s, lo);
      ShapeOfDo(g, s, lo);
    }
  }

  lemma {:induction false} EndsSeqExactly(g: Gen, ss: seq<Stmt>, lo: nat)
    requires Ready(g, lo) && LowerSeq(g, ss).ok && g.cur < |g.code.fns|
    ensures Terminated(InsertBlock(LowerSeq(g, ss))) <==> EndsSeq(ss)
    decreases ss
  {
    hide Settled, Tidy;
    if ss != [] {
      var g1 := LowerStmt(g, ss[0]);
      ShapeStmt(g, ss[0], lo);
      EndsExactly(g, ss[0], lo);
      if !Ends(ss[0]) {
        EndsSeqExactly(g1, ss[1..], lo);
      }
    }
  }

  lemma {:induction false} EndsNeverFalls(s: Stmt)
    requires Ends(s)
    ensures !Falls(s)
    decreases s
  {
    if s.Block? {
      EndsSeqNeverFalls(s.stmts);
    }
  }

  lemma {:induction false} EndsSeqNeverFalls(ss: seq<Stmt>)
    requires EndsSeq(ss)
    ensures !FallsAll(ss)
    decreases ss
  {
    if Ends(ss[0]) {
      EndsNeverFalls(ss[0]);
    } else {
      EndsSeqNeverFalls(ss[1..]);
    }
  }
}
