/** What any visit, failing or not, well scoped or not, does to the stack of scopes. */
module ScopeLevels {
  import opened Wrappers
  import opened Ast
  import opened Ir
  import opened Lowering
  import opened Shape
  import opened Visits

  /** No name is bound at two levels. */
  predicate Disjoint(scopes: seq<Scope>) {
    forall i, j, x :: 0 <= i < j < |scopes| && x in scopes[i] ==> x !in scopes[j]
  }

  predicate Contained(a: Scope, b: Scope) {
    forall x :: x in a ==> x in b && b[x] == a[x]
  }

  /** Only the innermost level has changed, and only by new names. */
  predicate InnerGrows(a: seq<Scope>, b: seq<Scope>) {
    && |a| == |b| > 0 && a[..|a| - 1] == b[..|b| - 1]
    && Contained(a[|a| - 1], b[|b| - 1])
    && (Disjoint(a) ==> Disjoint(b))
  }

  lemma InnerGrowsTransitive(a: seq<Scope>, b: seq<Scope>, c: seq<Scope>)
    requires InnerGrows(a, b) && InnerGrows(b, c)
    ensures InnerGrows(a, c)
  {
    hide Disjoint;
  }

  lemma {:induction false} LookupNone(scopes: seq<Scope>, x: string)
    requires Lookup(scopes, x).None?
    ensures forall i :: 0 <= i < |scopes| ==> x !in scopes[i]
    decreases scopes
  {
    if scopes != [] {
      LookupNone(scopes[..|scopes| - 1], x);
    }
  }

  /** A name is declared only if it is bound nowhere. */
  lemma DeclareGrows(scopes: seq<Scope>, x: string, r: nat)
    requires scopes != [] && Lookup(scopes, x).None?
    ensures InnerGrows(scopes, Declare(scopes, x, r))
  {
    LookupNone(scopes, x);
    var b := Declare(scopes, x, r);
    assert b[..|b| - 1] == scopes[..|scopes| - 1];
    if Disjoint(scopes) {
      forall i, j, y | 0 <= i < j < |b| && y in b[i] ensures y !in b[j] {
        assert y in scopes[i];
      }
    }
  }

  lemma PushPop(a: seq<Scope>, b: seq<Scope>)
    requires InnerGrows(a + [map[]], b)
    ensures Popped(b) == a
  {
    assert (a + [map[]])[..|a|] == a;
  }

  lemma AssignLevels(g: Gen, x: string, t: TType, from: TType, v: Operand)
    requires g.scopes != []
    ensures InnerGrows(g.scopes, LowerAssign(g, x, t, from, v).scopes)
  {
    if Lookup(g.scopes, x).None? {
      DeclareGrows(g.scopes, x, NextReg(g));
    }
  }

  /** A visit leaves the outer levels alone and keeps the levels disjoint; a block leaves every
      level exactly as it was. */
  lemma {:induction false} StmtLevels(g: Gen, s: Stmt, lo: nat)
    requires Ready(g, lo) && g.scopes != []
    ensures InnerGrows(g.scopes, LowerStmt(g, s).scopes)
    ensures s.Block? ==> LowerStmt(g, s).scopes == g.scopes
    decreases s
  {
    hide Ready, InnerGrows, LowerAssign, Grows;
    NoChange(g.scopes);
    match s
    case Assign(x, t, rhs) =>
      ShapeExpr(g, rhs, lo);
      var g1 := LowerExpr(g, rhs);
      if g1.g.ok {
        AssignLevels(g1.g, x, t, rhs.Type(), g1.operand.value);
      }
    case Print(e) => ShapeExpr(g, e, lo);
    case Return(e) => ShapeExpr(g, e, lo);
    case CallStmt(_) =>
    case Block(ss) =>
      var g0 := g.(scopes := g.scopes + [map[]]);
      ReadyRescoped(g, g0.scopes, lo);
      SeqLevels(g0, ss, lo);
      PushPop(g.scopes, LowerSeq(g0, ss).scopes);
    case If(_, _, _) => IfLevels(g, s, lo);
    case While(_, _) => WhileLevels(g, s, lo);
    case DoWhile(_, _) => DoLevels(g, s, lo);
  }

  lemma NoChange(a: seq<Scope>)
    ensures a != [] ==> InnerGrows(a, a)
  {
  }

  lemma ReadyRescoped(g: Gen, scopes: seq<Scope>, lo: nat)
    requires Ready(g, lo)
    ensures Ready(g.(scopes := scopes), lo)
  {
    UnderwayStart(g, {}, lo);
    ShapeRescoped(g, g, scopes, lo);
  }

  lemma {:induction false} SeqLevels(g: Gen, ss: seq<Stmt>, lo: nat)
    requires Ready(g, lo) && g.scopes != []
    ensures InnerGrows(g.scopes, LowerSeq(g, ss).scopes)
    decreases ss
  {
    if ss == [] {
      NoChange(g.scopes);
    } else {
      hide InnerGrows, Grows, Settled, Tidy;
      ShapeStmt(g, ss[0], lo);
      var g1 := LowerStmt(g, ss[0]);
      StmtLevels(g, ss[0], lo);
      NotEmpty(g.scopes, g1.scopes);
      if g1.ok && !Terminated(InsertBlock(g1)) {
        SeqLevels(g1, ss[1..], lo);
        InnerGrowsTransitive(g.scopes, g1.scopes, LowerSeq(g1, ss[1..]).scopes);
      }
    }
  }

  lemma NotEmpty(a: seq<Scope>, b: seq<Scope>)
    requires InnerGrows(a, b)
    ensures b != []
  {
  }

  lemma {:induction false} IfLevels(g: Gen, s: Stmt, lo: nat)
    requires Ready(g, lo) && g.scopes != [] && s.If?
    ensures InnerGrows(g.scopes, LowerStmt(g, s).scopes)
    decreases s, 0
  {
    hide Grows, Settled, Tidy, Ready, InnerGrows, LowerExpr, StartIf;
    NoChange(g.scopes);
    ShapeExpr(g, s.cond, lo);
    var g1 := LowerExpr(g, s.cond);
    if g1.g.ok {
      var l := NextLabel(g1.g);
      var g2 := StartIf(g1.g, g1.operand.value);
      ShapeStartIf(g1.g, g1.operand.value, lo);
      ShapeStmt(g2, s.thn, lo);
      var g3 := LowerStmt(g2, s.thn);
      StmtLevels(g2, s.thn, lo);
      ShapeNested(g1.g, g2, g3, {l + 1, l + 2}, lo);
      if g3.ok {
        ShapeJoin(g1.g, g3, l + 2, l + 1, {l + 1, l + 2}, {l + 2}, lo);
        var g4 := SetInsert(Attach(BranchIfOpen(g3, l + 2), l + 1), l + 1);
        NotEmpty(g.scopes, g3.scopes);
        if s.els.Some? {
          StmtLevels(g4, s.els.value, lo);
          InnerGrowsTransitive(g.scopes, g3.scopes, LowerStmt(g4, s.els.value).scopes);
        }
      }
    }
  }

  lemma {:induction false} WhileLevels(g: Gen, s: Stmt, lo: nat)
    requires Ready(g, lo) && g.scopes != [] && s.While?
    ensures InnerGrows(g.scopes, LowerStmt(g, s).scopes)
    decreases s, 0
  {
    hide Settled, Tidy, LowerExpr, Terminated, StartWhile, InnerGrows;
    NoChange(g.scopes);
    var l := NextLabel(g);
    var g0 := StartWhile(g);
    ShapeStartWhile(g, lo);
    ShapeExpr(g0, s.cond, lo);
    var g1 := LowerExpr(g0, s.cond);
    ExprNested(g, g0, g1, {l + 1, l + 2}, lo);
    if g1.g.ok {
      var i := CondBr(g1.operand.value, l + 1, l + 2);
      UnderwayEmit(g, g1.g, i, {l + 1, l + 2}, lo);
      ShapeEnter(g, Emit(g1.g, i), l + 1, {l + 1, l + 2}, {l + 2}, lo);
      StmtLevels(SetInsert(Emit(g1.g, i), l + 1), s.body, lo);
    }
  }

  lemma {:induction false} DoLevels(g: Gen, s: Stmt, lo: nat)
    requires Ready(g, lo) && g.scopes != [] && s.DoWhile?
    ensures InnerGrows(g.scopes, LowerStmt(g, s).scopes)
    decreases s, 0
  {
    hide Settled, Grows, LowerExpr, StartDoWhile, InnerGrows;
    var g0 := StartDoWhile(g);
    ShapeStartDoWhile(g, lo);
    StmtLevels(g0, s.body, lo);
    ShapeStmt(g0, s.body, lo);
    var g1 := LowerStmt(g0, s.body);
    if g1.ok && !Terminated(InsertBlock(g1)) {
      ShapeExpr(g1, s.cond, lo);
    }
  }
}
